/**
  Walking the account queue (router.py, `chat_after_name` and `_walk_account_queue`), closing streams (streaming.py,
  `ClosingStream`), and reserving a daily request (database.py, `reserve_api_key_request`).

  What each dispatch does is given.  Failover across channels is on.
 */
module QueueWalk {
  import opened Options

  // ---------------------------------------------------------------- streams

  /** Something that must be closed; it counts how often that happens. */
  class Resource {
    var closes: nat

    constructor ()
      ensures closes == 0
    {
      closes := 0;
    }

    method Close()
      modifies this
      ensures closes == old(closes) + 1
    {
      closes := closes + 1;
    }
  }

  /** What asking an iterator for its next chunk gives; `Raise(true)` is a cancellation. */
  datatype Event = Chunk(error: bool, rateLimited: bool) | End | Raise(cancelled: bool)

  class ClosingStream {
    const source: Resource
    const upstream: Resource?
    const onClose: Resource?  // a callback that takes the place of the upstream
    var closed: bool

    /** What is closed after the iterator. */
    ghost function Owned(): Resource? {
      if onClose != null then onClose else upstream
    }

    /** Both resources are closed once if the stream is closed, and not at all otherwise. */
    ghost predicate Valid()
      reads this, source, Owned()
    {
      && source != Owned()
      && source.closes == (if closed then 1 else 0)
      && (Owned() != null ==> Owned().closes == if closed then 1 else 0)
    }

    ghost function Footprint(): set<object> {
      {this, source} + if Owned() != null then {Owned()} else {}
    }

    constructor (i: Resource, u: Resource?, callback: Resource?)
      requires var owned := if callback != null then callback else u;
               i != owned && i.closes == 0 && (owned != null ==> owned.closes == 0)
      ensures Valid() && !closed && source == i && upstream == u && onClose == callback
    {
      source, upstream, onClose, closed := i, u, callback, false;
    }

    method AClose()
      requires Valid()
      modifies Footprint()
      ensures Valid() && closed
    {
      if closed {
        return;
      }
      closed := true;
      source.Close();
      if onClose != null {
        onClose.Close();
      } else if upstream != null {
        upstream.Close();
      }
    }

    /** The next chunk; the end and every exception close the stream. */
    method ANext(next: Event) returns (r: Event)
      requires Valid()
      modifies Footprint()
      ensures Valid() && r == (if old(closed) then End else next) && closed == (old(closed) || !next.Chunk?)
    {
      if closed {
        return End;
      }
      r := next;
      if !r.Chunk? {
        AClose();
      }
    }
  }

  // ---------------------------------------------------------------- the walk

  /** What a dispatch gives; a stream comes with the event that its first chunk will be. */
  datatype Dispatched = Json | Error(status: int) | Raised(cancelled: bool) | Stream(first: Event)

  /** One row of the queue; the channel of a row may have no provider any more. */
  datatype Hop = Hop(provider: bool, dispatched: Dispatched)

  datatype Result = JsonFrom(k: nat) | StreamFrom(k: nat) | Failed(status: int) | NoAccount | Cancelled | QuotaExceeded

  datatype HopEnd = Success | Failure(status: int) | Cancel

  /** How one dispatched hop ends. */
  function EndOf(d: Dispatched): HopEnd {
    match d
    case Json => Success
    case Error(status) => Failure(status)
    case Raised(cancelled) => if cancelled then Cancel else Failure(502)
    case Stream(first) =>
      match first
      case Chunk(error, rateLimited) => if !error then Success else if rateLimited then Failure(429) else Failure(502)
      case End => Failure(502)
      case Raise(cancelled) => if cancelled then Cancel else Failure(502)
  }

  /** The walk from row k on, with the error of the last failed hop. */
  function WalkFrom(hops: seq<Hop>, k: nat, lastError: Option<int>): Result
    requires k <= |hops|
    decreases |hops| - k
  {
    if k == |hops| then if lastError.Some? then Failed(lastError.value) else NoAccount
    else if !hops[k].provider then WalkFrom(hops, k + 1, lastError)
    else
      match EndOf(hops[k].dispatched)
      case Success => if hops[k].dispatched.Json? then JsonFrom(k) else StreamFrom(k)
      case Failure(status) => WalkFrom(hops, k + 1, Some(status))
      case Cancel => Cancelled
  }

  function Walk(hops: seq<Hop>): Result {
    WalkFrom(hops, 0, None)
  }

  ghost function AllOf(streams: seq<ClosingStream>): set<object> {
    set s, o | s in streams && o in s.Footprint() :: o
  }

  /** The row whose account becomes the sticky one: that of the result returned. */
  function NotedBy(r: Result): Option<nat> {
    match r
    case JsonFrom(k) => Some(k)
    case StreamFrom(k) => Some(k)
    case _ => None
  }

  /** One hop: dispatch, peek at a stream, close it unless it is kept. */
  method WalkHop(dispatched: Dispatched, stream: ClosingStream) returns (end: HopEnd)
    requires stream.Valid() && !stream.closed
    modifies stream.Footprint()
    ensures end == EndOf(dispatched)
    ensures stream.Valid() && (stream.closed <==> dispatched.Stream? && end != Success)
  {
    match dispatched {
      case Json => return Success;
      case Error(status) => return Failure(status);
      case Raised(cancelled) => return if cancelled then Cancel else Failure(502);
      case Stream(first) =>
        var event := stream.ANext(first);
        match event {
          case Chunk(error, rateLimited) =>
            if !error {
              return Success;
            }
            stream.AClose();
            return if rateLimited then Failure(429) else Failure(502);
          case End =>
            stream.AClose();
            return Failure(502);
          case Raise(cancelled) =>
            stream.AClose();
            return if cancelled then Cancel else Failure(502);
        }
    }
  }

  /** One hop among the others: their streams stay as they are. */
  method WalkHopAt(hops: seq<Hop>, streams: seq<ClosingStream>, k: nat) returns (end: HopEnd)
    requires k < |hops| == |streams| && forall i | 0 <= i < |streams| :: streams[i].Valid()
    requires !streams[k].closed
    requires forall i, j | 0 <= i < j < |streams| :: streams[i].Footprint() !! streams[j].Footprint()
    modifies AllOf(streams)
    ensures end == EndOf(hops[k].dispatched)
    ensures forall i | 0 <= i < |streams| :: streams[i].Valid()
    ensures forall i | 0 <= i < |streams| && i != k :: streams[i].closed == old(streams[i].closed)
    ensures streams[k].closed <==> hops[k].dispatched.Stream? && end != Success
  {
    hide EndOf;
    assert forall o | o in streams[k].Footprint() :: o in AllOf(streams);
    end := WalkHop(hops[k].dispatched, streams[k]);
  }

  /**
    The walk over the queue.  `spent` lists the rows dispatched, `noted` is the row whose account was noted as dispatched.  Afterwards a dispatched stream is closed, together with its
    upstream, exactly once, unless it is the one returned; streams of rows not dispatched are untouched.
   */
  method WalkAccountQueue(hops: seq<Hop>, streams: seq<ClosingStream>)
    returns (result: Result, spent: seq<nat>, noted: Option<nat>)
    requires |streams| == |hops| && forall k | 0 <= k < |streams| :: streams[k].Valid() && !streams[k].closed
    requires forall i, j | 0 <= i < j < |streams| :: streams[i].Footprint() !! streams[j].Footprint()
    modifies AllOf(streams)
    ensures result == Walk(hops) && noted == NotedBy(result)
    ensures forall i, j | 0 <= i < j < |spent| :: spent[i] < spent[j]
    ensures forall k: nat :: k in spent <==> k < |hops| && k < Visited(hops, 0) && hops[k].provider
    ensures forall k | 0 <= k < |streams| :: streams[k].Valid()
    ensures forall k | 0 <= k < |streams| :: streams[k].closed <==> (k in spent && hops[k].dispatched.Stream? && result != StreamFrom(k))
  {
    hide EndOf, Visited, WalkFrom;
    spent, noted := [], None;
    var lastError: Option<int> := None;
    VisitedBound(hops, 0);
    for k := 0 to |hops|
      invariant noted == None && WalkFrom(hops, k, lastError) == Walk(hops) && Visited(hops, 0) == Visited(hops, k)
      invariant forall i, j | 0 <= i < j < |spent| :: spent[i] < spent[j]
      invariant forall i | 0 <= i < |spent| :: spent[i] < k
      invariant forall i: nat :: i in spent <==> i < k && hops[i].provider
      invariant forall i | 0 <= i < |streams| :: streams[i].Valid()
      invariant forall i | 0 <= i < |streams| :: streams[i].closed <==> (i < k && hops[i].provider && hops[i].dispatched.Stream?)
    {
      VisitedStep(hops, k);
      WalkStep(hops, k, lastError);
      if !hops[k].provider {
        continue;
      }
      var end := WalkHopAt(hops, streams, k);
      spent := spent + [k];
      match end {
        case Success =>
          noted := Some(k);
          result := if hops[k].dispatched.Json? then JsonFrom(k) else StreamFrom(k);
          return;
        case Failure(status) =>
          lastError := Some(status);
        case Cancel =>
          result := Cancelled;
          return;
      }
    }
    VisitedEnd(hops);
    WalkEnd(hops, lastError);
    result := if lastError.Some? then Failed(lastError.value) else NoAccount;
  }

  lemma WalkStep(hops: seq<Hop>, k: nat, lastError: Option<int>)
    requires k < |hops|
    ensures WalkFrom(hops, k, lastError) ==
              if !hops[k].provider then WalkFrom(hops, k + 1, lastError)
              else match EndOf(hops[k].dispatched)
                   case Success => if hops[k].dispatched.Json? then JsonFrom(k) else StreamFrom(k)
                   case Failure(status) => WalkFrom(hops, k + 1, Some(status))
                   case Cancel => Cancelled
    ensures EndOf(hops[k].dispatched).Success? && !hops[k].dispatched.Json? ==> hops[k].dispatched.Stream?
  {
  }

  lemma WalkEnd(hops: seq<Hop>, lastError: Option<int>)
    ensures WalkFrom(hops, |hops|, lastError) == if lastError.Some? then Failed(lastError.value) else NoAccount
  {
  }

  /** How far the walk gets: up to and including the first row that succeeds or is cancelled. */
  function Visited(hops: seq<Hop>, k: nat): nat
    requires k <= |hops|
    decreases |hops| - k
  {
    if k == |hops| then k
    else if hops[k].provider && !EndOf(hops[k].dispatched).Failure? then k + 1
    else Visited(hops, k + 1)
  }

  lemma VisitedStep(hops: seq<Hop>, k: nat)
    requires k < |hops|
    ensures Visited(hops, k) == if hops[k].provider && !EndOf(hops[k].dispatched).Failure? then k + 1 else Visited(hops, k + 1)
  {
  }

  lemma VisitedEnd(hops: seq<Hop>)
    ensures Visited(hops, |hops|) == |hops|
  {
  }

  lemma {:induction false} VisitedBound(hops: seq<Hop>, k: nat)
    requires k <= |hops|
    ensures k <= Visited(hops, k) <= |hops|
    decreases |hops| - k
  {
    if k < |hops| {
      VisitedBound(hops, k + 1);
    }
  }

  /** The walk goes on behind this row. */
  predicate Passed(h: Hop) {
    h.provider ==> EndOf(h.dispatched).Failure?
  }

  /** Row n failed with this status, and no later row has a provider. */
  ghost predicate LastFailure(hops: seq<Hop>, n: int, status: int) {
    && 0 <= n < |hops| && hops[n].provider && EndOf(hops[n].dispatched) == Failure(status)
    && forall i | n < i < |hops| :: !hops[i].provider
  }

  /** Row n is dispatched, ends like this, and is the first that does not fail. */
  ghost predicate FirstNotFailing(hops: seq<Hop>, k: int, n: int) {
    0 <= k <= n < |hops| && hops[n].provider && !EndOf(hops[n].dispatched).Failure? && forall i | k <= i < n :: Passed(hops[i])
  }

  /** What a result says about the rows from k on, when the last failure before k was this one. */
  ghost predicate Explained(hops: seq<Hop>, k: int, lastError: Option<int>, result: Result) {
    match result
    case JsonFrom(n) => FirstNotFailing(hops, k, n) && hops[n].dispatched.Json?
    case StreamFrom(n) => FirstNotFailing(hops, k, n) && hops[n].dispatched.Stream? && EndOf(hops[n].dispatched).Success?
    case Cancelled => exists n :: FirstNotFailing(hops, k, n) && EndOf(hops[n].dispatched).Cancel?
    case Failed(status) => AllFailed(hops, k, lastError, status)
    case NoAccount => lastError.None? && NoProvider(hops, k)
    case QuotaExceeded => false
  }

  /** No row from k on ends the walk, and the last error is that of the last row dispatched. */
  ghost predicate AllFailed(hops: seq<Hop>, k: int, lastError: Option<int>, status: int) {
    && (forall i | 0 <= k <= i < |hops| :: Passed(hops[i]))
    && ((exists n :: k <= n && LastFailure(hops, n, status)) || (lastError == Some(status) && NoProvider(hops, k)))
  }

  ghost predicate NoProvider(hops: seq<Hop>, k: int) {
    forall i | 0 <= k <= i < |hops| :: !hops[i].provider
  }

  lemma {:induction false} WalkFromMeans(hops: seq<Hop>, k: nat, lastError: Option<int>)
    requires k <= |hops|
    ensures Explained(hops, k, lastError, WalkFrom(hops, k, lastError))
    decreases |hops| - k
  {
    hide EndOf, WalkFrom;
    if k == |hops| {
      WalkEnd(hops, lastError);
    } else {
      WalkStep(hops, k, lastError);
      var end := EndOf(hops[k].dispatched);
      if !hops[k].provider {
        WalkFromMeans(hops, k + 1, lastError);
      } else if end.Failure? {
        WalkFromMeans(hops, k + 1, Some(end.status));
        assert (forall i | k + 1 <= i < |hops| :: !hops[i].provider) ==> LastFailure(hops, k, end.status);
        if WalkFrom(hops, k + 1, Some(end.status)).Cancelled? {
          var n :| FirstNotFailing(hops, k + 1, n) && EndOf(hops[n].dispatched).Cancel?;
          assert FirstNotFailing(hops, k, n);
        }
      } else {
        assert FirstNotFailing(hops, k, k);
      }
    }
  }

  /**
    The walk returns the first success in queue order.  Without one it returns the error of the last row dispatched, or says
    that there was no account if no row had a provider; a cancellation ends it at once.
   */
  lemma WalkMeans(hops: seq<Hop>)
    ensures Explained(hops, 0, None, Walk(hops))
  {
    hide EndOf, WalkFrom, FirstNotFailing;
    WalkFromMeans(hops, 0, None);
  }

  // ---------------------------------------------------------------- the daily reservation

  /** The row of a key and a day; an absent row counts nothing. */
  type Usage = map<(int, string), nat>

  function CountOf(u: Usage, key: (int, string)): nat {
    if key in u then u[key] else 0
  }

  /** Whether a slot is granted, and the table afterwards. */
  function Reserved(u: Usage, key: (int, string), limit: int): (bool, Usage) {
    if limit > 0 && CountOf(u, key) >= limit then (false, u) else (true, u[key := CountOf(u, key) + 1])
  }

  /** Requests one after another, each with its key and day; the answers and the final table. */
  function ReserveAll(u: Usage, requests: seq<(int, string)>, limits: ((int, string)) -> int): (seq<bool>, Usage)
    decreases |requests|
  {
    if requests == [] then ([], u)
    else
      var (granted, u1) := Reserved(u, requests[0], limits(requests[0]));
      var (rest, u2) := ReserveAll(u1, requests[1..], limits);
      ([granted] + rest, u2)
  }

  function Asked(requests: seq<(int, string)>, key: (int, string)): nat {
    if requests == [] then 0 else (if requests[0] == key then 1 else 0) + Asked(requests[1..], key)
  }

  function Granted(requests: seq<(int, string)>, answers: seq<bool>, key: (int, string)): nat
    requires |answers| == |requests|
  {
    if requests == [] then 0
    else (if requests[0] == key && answers[0] then 1 else 0) + Granted(requests[1..], answers[1..], key)
  }

  /**
    Under a fixed positive limit a key's count for a day never passes it: it grows by exactly the requests granted, and they
    are as many as asked or as the limit leaves, whichever is less.  Without a limit every request is granted.
   */
  lemma {:induction false} ReservationsBounded(u: Usage, requests: seq<(int, string)>, limits: ((int, string)) -> int, key: (int, string))
    ensures var (answers, after) := ReserveAll(u, requests, limits);
            && |answers| == |requests|
            && CountOf(after, key) == CountOf(u, key) + Granted(requests, answers, key)
            && (limits(key) <= 0 ==> Granted(requests, answers, key) == Asked(requests, key))
            && (limits(key) > 0 && CountOf(u, key) <= limits(key) ==>
                  var free := limits(key) - CountOf(u, key);
                  Granted(requests, answers, key) == if Asked(requests, key) < free then Asked(requests, key) else free)
    decreases |requests|
  {
    if requests != [] {
      var (granted, u1) := Reserved(u, requests[0], limits(requests[0]));
      ReservationsBounded(u1, requests[1..], limits, key);
      var (rest, u2) := ReserveAll(u1, requests[1..], limits);
      assert ([granted] + rest)[1..] == rest;
    }
  }

  class DailyUsage {
    var counts: Usage

    /** Read the row, compare, and add one, in one transaction. */
    method Reserve(key: (int, string), limit: int) returns (granted: bool)
      modifies this
      ensures (granted, counts) == Reserved(old(counts), key, limit)
    {
      var current := if key in counts then counts[key] else 0;
      if limit > 0 && current >= limit {
        return false;
      }
      counts := counts[key := current + 1];
      granted := true;
    }
  }

  /**
    One request: an empty queue is refused without a reservation; otherwise one slot is reserved, and only then, if it is
    granted, is the queue walked, in order, up to the row that ends the walk.
   */
  method ChatAfterName(hops: seq<Hop>, streams: seq<ClosingStream>, usage: DailyUsage, key: (int, string), limit: int)
    returns (result: Result, spent: seq<nat>, noted: Option<nat>)
    requires |streams| == |hops| && forall k | 0 <= k < |streams| :: streams[k].Valid() && !streams[k].closed
    requires forall i, j | 0 <= i < j < |streams| :: streams[i].Footprint() !! streams[j].Footprint()
    requires usage !in AllOf(streams)
    modifies usage, AllOf(streams)
    ensures hops == [] ==> result == NoAccount && usage.counts == old(usage.counts) && spent == []
    ensures hops != [] ==> usage.counts == Reserved(old(usage.counts), key, limit).1
    ensures hops != [] && !Reserved(old(usage.counts), key, limit).0 ==> result == QuotaExceeded && spent == []
    ensures hops != [] && Reserved(old(usage.counts), key, limit).0 ==>
              && result == Walk(hops) && (forall i, j | 0 <= i < j < |spent| :: spent[i] < spent[j])
              && forall k: nat :: k in spent <==> k < |hops| && k < Visited(hops, 0) && hops[k].provider
    ensures noted == NotedBy(result)
    ensures forall k | 0 <= k < |streams| :: streams[k].Valid()
    ensures forall k | 0 <= k < |streams| :: streams[k].closed <==> (k in spent && hops[k].dispatched.Stream? && result != StreamFrom(k))
  {
    spent := [];
    if hops == [] {
      return NoAccount, [], None;
    }
    UsageApart(streams, usage);
    var granted := usage.Reserve(key, limit);
    if !granted {
      return QuotaExceeded, [], None;
    }
    result, spent, noted := WalkAccountQueue(hops, streams);
  }

  lemma UsageApart(streams: seq<ClosingStream>, usage: DailyUsage)
    requires usage !in AllOf(streams)
    ensures forall k | 0 <= k < |streams| :: usage !in streams[k].Footprint()
  {
    forall k | 0 <= k < |streams| ensures usage !in streams[k].Footprint() {
      assert streams[k] in streams;
    }
  }
}
