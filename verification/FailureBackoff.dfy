/**
  Backing off after failures (auth_manager.py, `mark_account_failure`, `mark_account_success`, `account_is_cooling_down`).

  Times are seconds of a monotone clock that starts at zero.  It is read before the lock is taken, so a history may hold
  readings out of order; each result says what it needs of them.
 */
module FailureBackoff {
  import opened Options

  const DECAY := 1800.0
  const HINT_MAX := 3600.0

  /** Failures in a row, the end of the cooldown, and the time of the last failure. */
  datatype Entry = Entry(count: nat, until: real, last: real)

  function MinReal(a: real, b: real): real {
    if b < a then b else a
  }

  function MaxReal(a: real, b: real): real {
    if b > a then b else a
  }

  function Power(n: nat): nat {
    if n == 0 then 1 else 2 * Power(n - 1)
  }

  predicate IsAuthStatus(status: int) {
    status in {401, 403, 429}
  }

  /** The cooldown of the count-th failure in a row. */
  function Cooldown(count: nat, status: int, hint: Option<real>): (c: real)
    requires count >= 1
    ensures 0.0 < c <= HINT_MAX
  {
    var doubled := (if IsAuthStatus(status) then 30 else 5) * Power(if count - 1 < 6 then count - 1 else 6);
    PowerPositive(if count - 1 < 6 then count - 1 else 6);
    var plain := MinReal(300.0, doubled as real);
    if hint.Some? && hint.value > 0.0 then MaxReal(plain, MinReal(hint.value, HINT_MAX)) else plain
  }

  lemma {:induction false} PowerPositive(n: nat)
    ensures Power(n) >= 1
  {
    if n > 0 {
      PowerPositive(n - 1);
    }
  }

  /** Each further failure doubles the cooldown, up to 300 seconds; a hint can only make it longer, up to an hour. */
  lemma CooldownDoubles(count: nat, status: int, hint: Option<real>)
    requires count >= 1
    ensures Cooldown(1, status, None) == if IsAuthStatus(status) then 30.0 else 5.0
    ensures Cooldown(count + 1, status, None) == MinReal(300.0, 2.0 * Cooldown(count, status, None))
    ensures hint.Some? && hint.value > 0.0 ==>
              Cooldown(count, status, hint) == MaxReal(Cooldown(count, status, None), MinReal(hint.value, HINT_MAX))
    ensures hint.Some? && hint.value <= 0.0 ==> Cooldown(count, status, hint) == Cooldown(count, status, None)
  {
    assert Power(0) == 1 && Power(1) == 2 && Power(2) == 4 && Power(3) == 8;
    assert Power(4) == 16 && Power(5) == 32 && Power(6) == 64;
    var k := if count - 1 < 6 then count - 1 else 6;
    assert k == 0 || k == 1 || k == 2 || k == 3 || k == 4 || k == 5 || k == 6;
  }

  /** The failure's place in its row: the row starts again after a quiet time. */
  function NextCount(e: Option<Entry>, now: real): (n: nat)
    ensures n >= 1
  {
    if e.None? || (e.value.count > 0 && now - e.value.last > DECAY) then 1 else e.value.count + 1
  }

  function Failed(e: Option<Entry>, now: real, status: int, hint: Option<real>): Entry {
    var count := NextCount(e, now);
    Entry(count, MaxReal(if e.Some? then e.value.until else 0.0, now + Cooldown(count, status, hint)), now)
  }

  /** The answer to a query. */
  predicate Cooling(e: Option<Entry>, now: real) {
    e.Some? && e.value.count > 0 && e.value.until > now
  }

  /** What a query leaves: an entry that is over and long quiet is dropped. */
  function Queried(e: Option<Entry>, now: real): Option<Entry> {
    if e.Some? && e.value.count > 0 && e.value.until <= now && now - e.value.last > DECAY then None else e
  }

  // ---------------------------------------------------------------- the table

  class FailureTable {
    var failures: map<int, Entry>
    var expired: set<int>  // accounts whose status was set to expired

    function EntryOf(aid: int): Option<Entry>
      reads this
    {
      if aid in failures then Some(failures[aid]) else None
    }

    method MarkSuccess(aid: int)
      modifies this`failures
      ensures EntryOf(aid) == None && forall a | a != aid :: EntryOf(a) == old(EntryOf(a))
    {
      failures := failures - {aid};
    }

    method MarkFailure(aid: int, now: real, status: int, hint: Option<real>)
      modifies this
      ensures EntryOf(aid) == Some(Failed(old(EntryOf(aid)), now, status, hint))
      ensures forall a | a != aid :: EntryOf(a) == old(EntryOf(a))
      ensures forall a :: a in expired <==> a in old(expired) || (a == aid && (status == 401 || status == 403))
    {
      var count, until := 0, 0.0;
      if aid in failures {
        count, until := failures[aid].count, failures[aid].until;
        if count > 0 && now - failures[aid].last > DECAY {
          count := 0;
        }
      }
      count := count + 1;
      failures := failures[aid := Entry(count, MaxReal(until, now + Cooldown(count, status, hint)), now)];
      if status in {401, 403} {
        expired := expired + {aid};
      }
    }

    method IsCoolingDown(aid: int, now: real) returns (cooling: bool)
      modifies this`failures
      ensures cooling == Cooling(old(EntryOf(aid)), now) && EntryOf(aid) == Queried(old(EntryOf(aid)), now)
      ensures forall a | a != aid :: EntryOf(a) == old(EntryOf(a))
    {
      if aid !in failures || failures[aid].count == 0 {
        return false;
      }
      var e := failures[aid];
      if e.until > now {
        return true;
      }
      if now - e.last > DECAY {
        failures := failures - {aid};
      }
      cooling := false;
    }
  }

  // ---------------------------------------------------------------- histories of one account

  datatype Event = Failure(at: real, status: int, hint: Option<real>) | Success(at: real) | Query(at: real)

  /** The entry after a history; `lazily` says whether queries drop entries. */
  function After(h: seq<Event>, lazily: bool): Option<Entry> {
    if h == [] then None
    else
      var e := After(h[..|h| - 1], lazily);
      match h[|h| - 1]
      case Failure(at, status, hint) => Some(Failed(e, at, status, hint))
      case Success(_) => None
      case Query(at) => if lazily then Queried(e, at) else e
  }

  predicate NonNegative(h: seq<Event>) {
    forall k | 0 <= k < |h| :: h[k].at >= 0.0
  }

  /** No failure and no query acts on a reading older than that of a query before it. */
  predicate QueriesInOrder(h: seq<Event>) {
    forall i, j | 0 <= i < j < |h| && h[i].Query? :: h[i].at <= h[j].at
  }

  /** No event acts on a stale reading. */
  predicate Monotone(h: seq<Event>) {
    NonNegative(h) && forall i, j | 0 <= i < j < |h| :: h[i].at <= h[j].at
  }

  /** The latest reading of a query. */
  function QueryClock(h: seq<Event>): (q: real)
    ensures q >= 0.0 && forall k | 0 <= k < |h| && h[k].Query? :: h[k].at <= q
    ensures q == 0.0 || exists k | 0 <= k < |h| :: h[k].Query? && h[k].at == q
  {
    if h == [] then 0.0
    else
      var g := h[..|h| - 1];
      var q := QueryClock(g);
      assert forall k | 0 <= k < |g| :: g[k] == h[k];
      if h[|h| - 1].Query? then MaxReal(q, h[|h| - 1].at) else q
  }

  /** The latest reading of a failure. */
  function FailureClock(h: seq<Event>): (f: real)
    ensures f >= 0.0
  {
    if h == [] then 0.0
    else
      var f := FailureClock(h[..|h| - 1]);
      if h[|h| - 1].Failure? then MaxReal(f, h[|h| - 1].at) else f
  }

  function ClockOf(h: seq<Event>): real {
    if h == [] then 0.0 else h[|h| - 1].at
  }

  // ---------------------------------------------------------------- dropping

  /** Equal, or one was dropped and the other is over and long quiet. */
  predicate Alike(dropped: Option<Entry>, kept: Option<Entry>, clock: real) {
    dropped == kept || (dropped.None? && kept.Some? && kept.value.until <= clock && clock - kept.value.last > DECAY)
  }

  predicate Counted(e: Option<Entry>) {
    e.Some? ==> e.value.count > 0
  }

  lemma AlikeStep(a: Option<Entry>, b: Option<Entry>, clock: real, now: real, status: int, hint: Option<real>)
    requires Alike(a, b, clock) && Counted(b) && 0.0 <= clock <= now
    ensures Cooling(a, now) == Cooling(b, now) && Failed(a, now, status, hint) == Failed(b, now, status, hint)
    ensures Alike(Queried(a, now), b, now) && Counted(Some(Failed(b, now, status, hint)))
  {
    hide Cooldown;
  }

  lemma {:induction false} AlikeAfter(h: seq<Event>)
    requires NonNegative(h) && QueriesInOrder(h)
    ensures Alike(After(h, true), After(h, false), QueryClock(h)) && Counted(After(h, false))
  {
    hide Alike, Counted, Failed, Queried, Cooldown;
    if h == [] {
      SameAlike(None, 0.0);
    } else {
      var g, last := h[..|h| - 1], h[|h| - 1];
      AlikeAfter(g);
      assert forall k | 0 <= k < |g| && g[k].Query? :: g[k].at <= last.at by {
        assert forall k | 0 <= k < |g| :: g[k] == h[k];
      }
      match last
      case Failure(at, status, hint) =>
        AlikeStep(After(g, true), After(g, false), QueryClock(g), at, status, hint);
        SameAlike(After(h, false), QueryClock(h));
      case Success(at) => SameAlike(None, QueryClock(h));
      case Query(at) => AlikeStep(After(g, true), After(g, false), QueryClock(g), at, 0, None);
    }
  }

  lemma SameAlike(e: Option<Entry>, clock: real)
    ensures Alike(e, e, clock) && Counted(None)
  {
  }

  /**
    Dropping entries is unobservable, as long as nothing acts on a reading older than that of an earlier query: every later query
    gives the same answer, every later failure the same entry.  Failures may be out of order among themselves.
   */
  lemma DroppingUnobservable(h: seq<Event>, now: real, status: int, hint: Option<real>)
    requires NonNegative(h) && QueriesInOrder(h) && QueryClock(h) <= now
    ensures Cooling(After(h, true), now) == Cooling(After(h, false), now)
    ensures Failed(After(h, true), now, status, hint) == Failed(After(h, false), now, status, hint)
  {
    hide Alike, Counted, Failed, Cooling, After, QueryClock;
    AlikeAfter(h);
    AlikeStep(After(h, true), After(h, false), QueryClock(h), now, status, hint);
  }

  /**
    Exactly when a dropped entry is missed: later failures and queries at some reading do as if it were still there, if and only
    if it would be dropped at that reading as well.
   */
  lemma DropHarmless(e: Entry, now: real)
    requires e.count > 0 && now >= 0.0
    ensures (Cooling(None, now) == Cooling(Some(e), now)
             && forall status, hint :: Failed(None, now, status, hint) == Failed(Some(e), now, status, hint))
            <==> Queried(Some(e), now) == None
  {
    hide Cooldown;
    if Queried(Some(e), now) == None {
      forall status, hint ensures Failed(None, now, status, hint) == Failed(Some(e), now, status, hint) {
      }
    }
    if forall status, hint :: Failed(None, now, status, hint) == Failed(Some(e), now, status, hint) {
      assert Failed(None, now, 500, None) == Failed(Some(e), now, 500, None);
    }
  }

  // ---------------------------------------------------------------- exactly when dropping is seen

  /** A query with this reading drops the entry. */
  predicate Removable(e: Option<Entry>, at: real) {
    e.Some? && e.value.until <= at && at - e.value.last > DECAY
  }

  /** A query since the last failure or success has dropped the entry that would be there at event k. */
  ghost predicate Removed(h: seq<Event>, k: int) {
    exists j :: RemovedBy(h, j, k)
  }

  predicate RemovedBy(h: seq<Event>, j: int, k: int) {
    0 <= j < k <= |h| && (forall i | j <= i < k :: h[i].Query?) && Removable(After(h[..k], false), h[j].at)
  }

  /** Without the entry this event goes differently: the entry would still stand for a query, or count on for a failure. */
  predicate Missed(e: Entry, v: Event) {
    match v
    case Query(at) => e.until > at
    case Failure(at, status, hint) => at - e.last <= DECAY || e.until > at + Cooldown(1, status, hint)
    case Success(_) => false
  }

  /** Event k acts on an entry that was dropped. */
  ghost predicate Noticed(h: seq<Event>, k: int)
    requires 0 <= k < |h|
  {
    Removed(h, k) && After(h[..k], false).Some? && Missed(After(h[..k], false).value, h[k])
  }

  /** Event k gives the same answer, or leaves the same entry, with and without dropping. */
  predicate Unseen(h: seq<Event>, k: int)
    requires 0 <= k < |h|
  {
    match h[k]
    case Query(at) => Cooling(After(h[..k], true), at) == Cooling(After(h[..k], false), at)
    case Failure(_, _, _) => After(h[..k + 1], true) == After(h[..k + 1], false)
    case Success(_) => true
  }

  lemma {:induction false} CountedAfter(h: seq<Event>, lazily: bool)
    ensures Counted(After(h, lazily))
  {
    hide Cooldown;
    if h != [] {
      CountedAfter(h[..|h| - 1], lazily);
    }
  }

  lemma MissedMeans(e: Entry, v: Event)
    requires e.count > 0 && v.at >= 0.0
    ensures v.Success? ==> !Missed(e, v)
    ensures v.Query? ==> (Missed(e, v) <==> Cooling(None, v.at) != Cooling(Some(e), v.at))
    ensures v.Failure? ==> (Missed(e, v) <==> Failed(None, v.at, v.status, v.hint) != Failed(Some(e), v.at, v.status, v.hint))
  {
    hide Cooldown;
  }

  lemma AfterStep(h: seq<Event>, k: nat, lazily: bool)
    requires k < |h|
    ensures After(h[..k + 1], lazily) ==
              match h[k]
              case Failure(at, status, hint) => Some(Failed(After(h[..k], lazily), at, status, hint))
              case Success(_) => None
              case Query(at) => if lazily then Queried(After(h[..k], lazily), at) else After(h[..k], lazily)
  {
    var g := h[..k + 1];
    assert g[..|g| - 1] == h[..k] && g[|g| - 1] == h[k];
    hide Failed, Queried;
  }

  /** After a query: the entry is gone if it was before, or is dropped now. */
  lemma RemovedByQuery(h: seq<Event>, k: nat)
    requires k < |h| && h[k].Query?
    ensures Removed(h, k + 1) <==> Removed(h, k) || Removable(After(h[..k], false), h[k].at)
  {
    hide Removable, After;
    AfterStep(h, k, false);
    if Removed(h, k) {
      var j :| RemovedBy(h, j, k);
      assert RemovedBy(h, j, k + 1);
    }
    if Removable(After(h[..k], false), h[k].at) {
      assert RemovedBy(h, k, k + 1);
    }
    if Removed(h, k + 1) {
      var j :| RemovedBy(h, j, k + 1);
      assert j < k ==> RemovedBy(h, j, k);
    }
  }

  lemma RemovedOtherwise(h: seq<Event>, k: nat)
    requires k < |h| && !h[k].Query?
    ensures !Removed(h, k + 1)
  {
  }

  /** The two entries before event k: one is gone exactly if it was removed. */
  ghost predicate Paired(h: seq<Event>, k: int)
    requires 0 <= k <= |h|
  {
    After(h[..k], true) == if Removed(h, k) then None else After(h[..k], false)
  }

  /** At one event: it is unseen exactly if not noticed, and then the entries stay paired. */
  lemma PairedStep(h: seq<Event>, k: nat)
    requires k < |h| && h[k].at >= 0.0 && Paired(h, k)
    ensures Unseen(h, k) <==> !Noticed(h, k)
    ensures Unseen(h, k) ==> Paired(h, k + 1)
  {
    hide After, Removed, Failed, Cooling, Missed, Removable, Queried;
    AfterStep(h, k, true);
    AfterStep(h, k, false);
    CountedAfter(h[..k], false);
    var e := After(h[..k], false);
    if e.Some? {
      MissedMeans(e.value, h[k]);
    }
    if h[k].Query? {
      RemovedByQuery(h, k);
      QueriedIs(e, h[k].at);
    } else {
      RemovedOtherwise(h, k);
    }
  }

  lemma QueriedIs(e: Option<Entry>, at: real)
    requires Counted(e)
    ensures Queried(e, at) == if Removable(e, at) then None else e
    ensures Queried(None, at) == None
  {
  }

  lemma {:induction false} PairedUpTo(h: seq<Event>, n: nat)
    requires NonNegative(h) && n <= |h|
    requires (forall k | 0 <= k < n :: Unseen(h, k)) || (forall k | 0 <= k < n :: !Noticed(h, k))
    ensures Paired(h, n) && forall k | 0 <= k < n :: Unseen(h, k) && !Noticed(h, k)
  {
    hide Unseen, Noticed, Paired;
    if n == 0 {
      PairedAtStart(h);
    } else {
      PairedUpTo(h, n - 1);
      PairedStep(h, n - 1);
    }
  }

  lemma PairedAtStart(h: seq<Event>)
    ensures Paired(h, 0)
  {
    assert h[..0] == [];
  }

  /**
    Over a whole history, however stale its readings: dropping entries changes no answer and no entry, exactly when no event acts
    on an entry that a query before it has dropped.
   */
  lemma DroppingUnseen(h: seq<Event>)
    requires NonNegative(h)
    ensures (forall k | 0 <= k < |h| :: Unseen(h, k)) <==> (forall k | 0 <= k < |h| :: !Noticed(h, k))
  {
    hide Unseen, Noticed, Paired;
    if (forall k | 0 <= k < |h| :: Unseen(h, k)) || (forall k | 0 <= k < |h| :: !Noticed(h, k)) {
      PairedUpTo(h, |h|);
    }
  }

  /** Only a reading older than that of the query that dropped the entry can be noticed. */
  lemma NoticedIsStale(h: seq<Event>, k: nat)
    requires k < |h| && Noticed(h, k)
    ensures exists j | 0 <= j < k :: h[j].Query? && h[k].at < h[j].at
  {
    hide After;
    var j :| RemovedBy(h, j, k);
    assert h[j].Query? && h[k].at < h[j].at;
  }

  /** A failure that acts on a stale reading misses the entry that a query dropped: its cooldown starts over. */
  lemma StaleFailureForgets()
    ensures var h := [Failure(0.0, 500, None), Query(2000.0), Failure(1000.0, 500, None)];
            !QueriesInOrder(h) && After(h, true) != After(h, false) && Cooling(After(h, false), 1007.0) && !Cooling(After(h, true), 1007.0)
  {
    var h := [Failure(0.0, 500, None), Query(2000.0), Failure(1000.0, 500, None)];
    assert h[1].at > h[2].at;
    var a, b := h[..1], h[..2];
    assert h[..|h| - 1] == b && b[..|b| - 1] == a && a[..|a| - 1] == [];
    assert Power(0) == 1 && Power(1) == 2;
    assert Cooldown(1, 500, None) == 5.0 && Cooldown(2, 500, None) == 10.0;
    assert After(a, true) == After(a, false) == Some(Entry(1, 5.0, 0.0));
    assert After(b, true) == None && After(b, false) == Some(Entry(1, 5.0, 0.0));
  }

  // ---------------------------------------------------------------- when an account cools down

  /** Among the first n events, the one at k is a failure with no success after it. */
  predicate Stands(h: seq<Event>, n: int, k: int)
    requires 0 <= n <= |h|
  {
    0 <= k < n && h[k].Failure? && forall j | k < j < n :: !h[j].Success?
  }

  /** Failures in a row up to and including the one at k, each at most the decay time after the one before. */
  function RowLength(h: seq<Event>, k: nat): (n: nat)
    requires k < |h| && h[k].Failure?
    ensures n >= 1
  {
    var before := PreviousFailure(h, k);
    if before < 0 || h[k].at - h[before].at > DECAY then 1 else RowLength(h, before) + 1
  }

  /** The last failure before k with no success in between; -1 if there is none. */
  function PreviousFailure(h: seq<Event>, k: nat): (p: int)
    requires k <= |h|
    ensures -1 <= p < k && (p >= 0 ==> h[p].Failure? && forall j | p < j < k :: h[j].Query?)
    ensures p < 0 ==> forall j | 0 <= j < k && h[j].Failure? :: exists i :: j < i < k && h[i].Success?
  {
    if k == 0 || h[k - 1].Success? then -1
    else if h[k - 1].Failure? then k - 1
    else PreviousFailure(h, k - 1)
  }

  /** The end of the cooldown that the failure at k brought. */
  function EndOf(h: seq<Event>, k: nat): real
    requires k < |h| && h[k].Failure?
  {
    h[k].at + Cooldown(RowLength(h, k), h[k].status, h[k].hint)
  }

  /** The entry, read off the first n events: the row of the last failure, and the latest end of all that stand. */
  ghost predicate Records(h: seq<Event>, n: nat, e: Option<Entry>)
    requires n <= |h|
  {
    var last := PreviousFailure(h, n);
    if last < 0 then e == None
    else
      && e.Some? && e.value.count == RowLength(h, last) && e.value.last == h[last].at
      && (forall k | Stands(h, n, k) :: EndOf(h, k) <= e.value.until)
      && exists k :: Stands(h, n, k) && e.value.until == EndOf(h, k)
  }

  lemma NoneStands(h: seq<Event>, n: nat)
    requires n <= |h|
    ensures PreviousFailure(h, n) < 0 ==> forall k :: !Stands(h, n, k)
    ensures PreviousFailure(h, n) >= 0 ==> Stands(h, n, PreviousFailure(h, n))
  {
    hide PreviousFailure;
  }

  lemma FailureRecords(h: seq<Event>, n: nat, e: Option<Entry>)
    requires n < |h| && h[n].at >= 0.0 && h[n].Failure? && Records(h, n, e)
    ensures Records(h, n + 1, Some(Failed(e, h[n].at, h[n].status, h[n].hint)))
  {
    hide Cooldown;
    NoneStands(h, n);
    var f := Failed(e, h[n].at, h[n].status, h[n].hint);
    assert PreviousFailure(h, n + 1) == n;
    assert f.count == RowLength(h, n);
    assert Stands(h, n + 1, n);
    assert forall k | Stands(h, n + 1, k) && k != n :: Stands(h, n, k);
    assert forall k | Stands(h, n, k) :: Stands(h, n + 1, k);
    assert e.None? ==> f.until == EndOf(h, n);
  }

  lemma QueryRecords(h: seq<Event>, n: nat, e: Option<Entry>)
    requires n < |h| && h[n].Query? && Records(h, n, e)
    ensures Records(h, n + 1, e)
  {
    hide Cooldown, RowLength;
    assert PreviousFailure(h, n + 1) == PreviousFailure(h, n);
    assert forall k :: Stands(h, n + 1, k) <==> Stands(h, n, k);
  }

  lemma {:induction false} RecordsAll(h: seq<Event>, n: nat)
    requires NonNegative(h) && n <= |h|
    ensures Records(h, n, After(h[..n], false))
  {
    hide Records, Failed, Cooldown;
    if n == 0 {
      StartRecords(h);
    } else {
      var g := h[..n];
      assert g[..|g| - 1] == h[..n - 1];
      RecordsAll(h, n - 1);
      match h[n - 1]
      case Failure(_, _, _) => FailureRecords(h, n - 1, After(h[..n - 1], false));
      case Success(_) => SuccessRecords(h, n);
      case Query(_) => QueryRecords(h, n - 1, After(h[..n - 1], false));
    }
  }

  lemma StartRecords(h: seq<Event>)
    ensures Records(h, 0, None) && After(h[..0], false) == None
  {
  }

  lemma SuccessRecords(h: seq<Event>, n: nat)
    requires 0 < n <= |h| && h[n - 1].Success?
    ensures Records(h, n, None)
  {
  }

  /**
    An account cools down exactly when some failure since its last success brought a cooldown that is not over: for all readings,
    however stale, if no entry was dropped, and whether or not entries were dropped if none is older than that of an earlier query.
   */
  lemma CoolingMeans(h: seq<Event>, now: real, lazily: bool)
    requires NonNegative(h) && (lazily ==> QueriesInOrder(h) && QueryClock(h) <= now)
    ensures Cooling(After(h, lazily), now) <==> exists k :: Stands(h, |h|, k) && EndOf(h, k) > now
  {
    hide After, RowLength, PreviousFailure, Failed, Cooldown, QueryClock;
    if lazily {
      DroppingUnobservable(h, now, 0, None);
    }
    RecordsAll(h, |h|);
    assert h[..|h|] == h;
    NoneStands(h, |h|);
  }

  // ---------------------------------------------------------------- how far an end can be

  lemma FailedBounded(e: Option<Entry>, clock: real, now: real, status: int, hint: Option<real>)
    requires clock >= 0.0 && (e.Some? ==> e.value.until <= clock + HINT_MAX)
    ensures var f := Failed(e, now, status, hint);
            (e.Some? ==> e.value.until <= f.until) && now < f.until <= MaxReal(clock, now) + HINT_MAX
  {
    hide Cooldown;
  }

  lemma {:induction false} EndsWithin(h: seq<Event>, lazily: bool)
    requires NonNegative(h)
    ensures var e := After(h, lazily); e.Some? ==> e.value.until <= FailureClock(h) + HINT_MAX
    ensures var e := After(h, lazily); e.Some? && Monotone(h) ==> e.value.last == FailureClock(h)
  {
    hide Cooldown;
    if h != [] {
      var g, last := h[..|h| - 1], h[|h| - 1];
      assert forall k | 0 <= k < |g| :: g[k] == h[k];
      EndsWithin(g, lazily);
      if last.Failure? {
        FailedBounded(After(g, lazily), FailureClock(g), last.at, last.status, last.hint);
        ClockBound(g, last.at);
      }
    }
  }

  lemma {:induction false} ClockBound(h: seq<Event>, now: real)
    requires 0.0 <= now
    ensures (forall k | 0 <= k < |h| :: h[k].at <= now) ==> FailureClock(h) <= now
  {
    if h != [] {
      ClockBound(h[..|h| - 1], now);
    }
  }

  /**
    For all readings, however stale: a failure never moves the end of a cooldown back, brings an end after its own reading, and no
    end is more than an hour after the latest reading of a failure.  With readings in order that is the last failure's.
   */
  lemma EndsBounded(h: seq<Event>, now: real, status: int, hint: Option<real>, lazily: bool)
    requires NonNegative(h)
    ensures var e, f := After(h, lazily), Failed(After(h, lazily), now, status, hint);
            && (e.Some? ==> e.value.until <= f.until && e.value.until <= FailureClock(h) + HINT_MAX)
            && now < f.until <= MaxReal(FailureClock(h), now) + HINT_MAX
            && (Monotone(h) && ClockOf(h) <= now ==>
                  f.until <= now + HINT_MAX && (e.Some? ==> e.value.until <= e.value.last + HINT_MAX))
  {
    hide After, Cooldown, Failed, FailureClock;
    EndsWithin(h, lazily);
    FailedBounded(After(h, lazily), FailureClock(h), now, status, hint);
    if Monotone(h) && ClockOf(h) <= now {
      assert forall k | 0 <= k < |h| :: h[k].at <= ClockOf(h);
      ClockBound(h, now);
    }
  }
}
