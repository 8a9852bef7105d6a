/**
  The cached quota of an account (database.py, `_write_account_resource_cache`; resource_sync.py, `store_quota_expiry` and
  `store_quota_reading`; routing.py, `quota_exhausted`, `account_available` and `channel_pool`).
 */
module QuotaCache {
  import opened Options

  /** A stored number: absent (or empty), something that is no number, or a number. */
  datatype Field = Absent | Junk | Number(r: real)

  datatype Expiry = Expiry(at: real, days: real)

  /** A payload: the stored row, or the keys that one writer observed.  A key that is not there is None or Absent. */
  datatype Row = Row(remaining: Field, available: Field, dosage: Field, peak: Field, unsupported: Option<bool>, ok: Option<bool>,
                     expiry: Option<Expiry>, source: Option<string>, observedAt: Option<int>, updatedAt: int)

  const NO_ROW := Row(Absent, Absent, Absent, Absent, None, None, None, None, None, 0)

  function PayloadRemaining(p: Row): Option<real> {
    if p.remaining.Number? then Some(p.remaining.r)
    else if p.available.Number? then Some(p.available.r)
    else if p.dosage.Number? then Some(p.dosage.r)
    else None
  }

  function Max(a: Option<real>, b: Option<real>): Option<real> {
    if a.None? then b else if b.None? || b.value <= a.value then a else b
  }

  function Over<T>(new_: Option<T>, old_: Option<T>): Option<T> {
    if new_.Some? then new_ else old_
  }

  function OverField(new_: Field, old_: Field): Field {
    if new_ != Absent then new_ else old_
  }

  /** The stored keys with the observed ones over them. */
  function Updated(stored: Row, p: Row): Row {
    Row(OverField(p.remaining, stored.remaining), OverField(p.available, stored.available), OverField(p.dosage, stored.dosage),
        OverField(p.peak, stored.peak), Over(p.unsupported, stored.unsupported), Over(p.ok, stored.ok), Over(p.expiry, stored.expiry),
        Over(p.source, stored.source), Over(p.observedAt, stored.observedAt), p.updatedAt)
  }

  /** A stored row whose peak is no number is thrown away as a whole. */
  function Readable(stored: Option<Row>): Option<Row> {
    if stored.Some? && stored.value.peak.Junk? then None else stored
  }

  function NumberOf(f: Field): Option<real> {
    if f.Number? then Some(f.r) else None
  }

  /** The row after a write; None is a row that is not there yet. */
  function Written(stored: Option<Row>, p: Row, merge: bool): Row {
    var old_ := if Readable(stored).Some? then stored.value else NO_ROW;
    var merged := if merge then Updated(old_, p) else p;
    var peak := Max(Max(PayloadRemaining(old_), NumberOf(old_.peak)), PayloadRemaining(merged));
    if peak.Some? then merged.(peak := Number(peak.value)) else merged
  }

  // ---------------------------------------------------------------- writers

  /** One observation: a deadline, a quota reading, or a peak, with the time it was made. */
  datatype Observation = Deadline(expires: Option<real>, remaining: Option<real>, peak: Option<real>, source: string, now: real)
                       | Reading(remaining: Option<real>, peak: Option<real>, source: string, now: real)

  /** Days until the deadline, to three decimals and not negative. */
  function DaysUntil(expires: real, now: real): (d: real)
    ensures d >= 0.0
  {
    var thousandths := ((expires - now) / 86400.0 * 1000.0 + 0.5).Floor;
    if thousandths < 0 then 0.0 else thousandths as real / 1000.0
  }

  function SourceField(source: string): Option<string> {
    if source != "" then Some(source) else None
  }

  function FieldOf(v: Option<real>): Field {
    if v.Some? then Number(v.value) else Absent
  }

  /** The deadline that counts: one that is not over yet. */
  function LiveDeadline(o: Observation): Option<real> {
    if o.Deadline? && o.expires.Some? && o.expires.value > o.now then o.expires else None
  }

  predicate Observed(o: Observation) {
    LiveDeadline(o).Some? || o.remaining.Some? || o.peak.Some?
  }

  function PayloadOf(o: Observation): Row {
    var live := LiveDeadline(o);
    Row(FieldOf(o.remaining), FieldOf(o.remaining), Absent, FieldOf(o.peak), None, Some(true),
        if live.Some? then Some(Expiry(live.value, DaysUntil(live.value, o.now))) else None,
        SourceField(o.source), if o.remaining.Some? then Some(o.now.Floor) else None, o.now.Floor)
  }

  /** The row after an observation; nothing observed, nothing written. */
  function Stored(row: Option<Row>, o: Observation): Option<Row> {
    if Observed(o) then Some(Written(row, PayloadOf(o), true)) else row
  }

  function StoredAll(row: Option<Row>, os: seq<Observation>): Option<Row>
    decreases |os|
  {
    if os == [] then row else StoredAll(Stored(row, os[0]), os[1..])
  }

  // ---------------------------------------------------------------- the gate

  function SnapshotRemaining(row: Option<Row>): Option<real> {
    if row.None? || row.value.unsupported == Some(true) || row.value.ok == Some(false) then None else PayloadRemaining(row.value)
  }

  predicate Exhausted(row: Option<Row>) {
    SnapshotRemaining(row).Some? && SnapshotRemaining(row).value <= 0.0
  }

  /** The account of this row may serve. */
  predicate Available(row: Option<Row>, exempt: bool) {
    exempt || !Exhausted(row)
  }

  function ChannelPool(accounts: seq<nat>, rows: map<nat, Row>, exempt: bool): seq<nat> {
    if accounts == [] then []
    else
      var row := if accounts[0] in rows then Some(rows[accounts[0]]) else None;
      (if Available(row, exempt) then [accounts[0]] else []) + ChannelPool(accounts[1..], rows, exempt)
  }

  // ---------------------------------------------------------------- the table

  class ResourceCache {
    var rows: map<nat, Row>

    function RowOf(id: nat): Option<Row>
      reads this
    {
      if id in rows then Some(rows[id]) else None
    }

    /** Read the stored row, merge, carry the peak forward, write. */
    method Write(id: nat, payload: Row, merge: bool) returns (written: Row)
      modifies this
      ensures written == Written(old(RowOf(id)), payload, merge) && rows == old(rows)[id := written]
    {
      written := payload;
      var stored := NO_ROW;
      var previousPeak: Option<real> := None;
      if id in rows {
        stored := rows[id];
        previousPeak := PayloadRemaining(stored);
        match stored.peak {
          case Absent =>
          case Number(r) =>
            if previousPeak.None? || r > previousPeak.value {
              previousPeak := Some(r);
            }
          case Junk => stored, previousPeak := NO_ROW, None;
        }
      }
      if merge {
        written := Updated(stored, written);
      }
      var current := PayloadRemaining(written);
      var peak := if previousPeak.None? then current
                  else if current.Some? && current.value > previousPeak.value then current else previousPeak;
      if peak.Some? {
        written := written.(peak := Number(peak.value));
      }
      rows := rows[id := written];
    }

    method StoreQuotaExpiry(id: nat, expiresAt: Option<real>, remaining: Option<real>, peak: Option<real>, source: string, now: real)
      modifies this
      ensures var after := Stored(old(RowOf(id)), Deadline(expiresAt, remaining, peak, source, now));
              rows == if after == old(RowOf(id)) && !Observed(Deadline(expiresAt, remaining, peak, source, now)) then old(rows)
                      else old(rows)[id := after.value]
    {
      var expires := expiresAt;
      if expires.Some? && expires.value <= now {
        expires := None;
      }
      var payload := NO_ROW.(ok := Some(true));
      var observed := false;
      if source != "" {
        payload := payload.(source := Some(source));
      }
      if expires.Some? {
        payload := payload.(expiry := Some(Expiry(expires.value, DaysUntil(expires.value, now))));
        observed := true;
      }
      if remaining.Some? {
        payload := payload.(remaining := Number(remaining.value), available := Number(remaining.value), observedAt := Some(now.Floor));
        observed := true;
      }
      if peak.Some? {
        payload := payload.(peak := Number(peak.value));
        observed := true;
      }
      if !observed {
        return;
      }
      payload := payload.(updatedAt := now.Floor);
      assert payload == PayloadOf(Deadline(expiresAt, remaining, peak, source, now));
      var written := Write(id, payload, true);
    }

    method StoreQuotaReading(id: nat, remaining: Option<real>, peak: Option<real>, source: string, now: real)
      modifies this
      ensures var o := Reading(remaining, peak, source, now);
              rows == if Observed(o) then old(rows)[id := Stored(old(RowOf(id)), o).value] else old(rows)
    {
      var payload := NO_ROW.(ok := Some(true));
      if source != "" {
        payload := payload.(source := Some(source));
      }
      var observed := false;
      if remaining.Some? {
        payload := payload.(remaining := Number(remaining.value), available := Number(remaining.value), observedAt := Some(now.Floor));
        observed := true;
      }
      if peak.Some? {
        payload := payload.(peak := Number(peak.value));
        observed := true;
      }
      if !observed {
        return;
      }
      payload := payload.(updatedAt := now.Floor);
      assert payload == PayloadOf(Reading(remaining, peak, source, now));
      var written := Write(id, payload, true);
    }
  }

  // ---------------------------------------------------------------- what the cache says after any observations

  /** The last quota reading among the observations. */
  function LastReading(os: seq<Observation>): Option<real> {
    if os == [] then None
    else if os[|os| - 1].remaining.Some? then os[|os| - 1].remaining
    else LastReading(os[..|os| - 1])
  }

  function RemainingOf(row: Option<Row>): Option<real> {
    if row.Some? then PayloadRemaining(row.value) else None
  }

  predicate IsUnsupported(row: Option<Row>) {
    row.Some? && row.value.unsupported == Some(true)
  }

  lemma OneStored(row: Option<Row>, o: Observation)
    requires Observed(o)
    ensures var after := Stored(row, o);
            && after.Some? && after.value.ok == Some(true) && Readable(after) == after
            && IsUnsupported(after) == IsUnsupported(Readable(row))
            && RemainingOf(after) == Over(o.remaining, RemainingOf(Readable(row)))
  {
  }

  lemma {:induction false} StoredSnoc(row: Option<Row>, os: seq<Observation>, o: Observation)
    ensures StoredAll(row, os + [o]) == Stored(StoredAll(row, os), o)
    decreases |os|
  {
    hide Stored;
    if os == [] {
      assert os + [o] == [o] && [o][1..] == [];
    } else {
      assert (os + [o])[0] == os[0] && (os + [o])[1..] == os[1..] + [o];
      StoredSnoc(Stored(row, os[0]), os[1..], o);
    }
  }

  /** Only readings change what is remaining, and the last one counts. */
  lemma {:induction false} StoredAllMeans(row: Option<Row>, os: seq<Observation>)
    ensures var after, before := StoredAll(row, os), Readable(row);
            && IsUnsupported(Readable(after)) == IsUnsupported(before)
            && RemainingOf(Readable(after)) == Over(LastReading(os), RemainingOf(before))
            && ((exists k | 0 <= k < |os| :: Observed(os[k])) ==>
                  after.Some? && after.value.ok == Some(true) && Readable(after) == after)
            && ((forall k | 0 <= k < |os| :: !Observed(os[k])) ==> after == row)
  {
    if os != [] {
      var front, last := os[..|os| - 1], os[|os| - 1];
      assert os == front + [last];
      StoredAllMeans(row, front);
      StoredSnoc(row, front, last);
      hide Written, PayloadOf;
      if Observed(last) {
        OneStored(StoredAll(row, front), last);
      }
    }
  }

  /**
    After any observations that recorded something, an account is held back exactly when it is supported and the last reading,
    or without one the remaining quota cached before in a readable row, is zero or less.
   */
  lemma ExhaustedMeans(row: Option<Row>, os: seq<Observation>)
    requires exists k | 0 <= k < |os| :: Observed(os[k])
    ensures Exhausted(StoredAll(row, os)) <==>
            var before := Readable(row);
            var last := Over(LastReading(os), RemainingOf(before));
            !IsUnsupported(before) && last.Some? && last.value <= 0.0
  {
    StoredAllMeans(row, os);
    hide StoredAll, LastReading, PayloadRemaining;
  }

  lemma {:induction false} PoolMembers(accounts: seq<nat>, rows: map<nat, Row>, exempt: bool, a: nat)
    ensures a in ChannelPool(accounts, rows, exempt) <==>
            a in accounts && Available(if a in rows then Some(rows[a]) else None, exempt)
  {
    hide Available;
    if accounts != [] {
      PoolMembers(accounts[1..], rows, exempt, a);
    }
  }

  /**
    A zero stays a zero: through any number of deadlines the account is in no pool of a channel that is not exempt.  The one exception
    is a row whose peak is no number: the first deadline recorded throws it away, and the zero with it.
   */
  lemma ZeroSticks(accounts: seq<nat>, rows: map<nat, Row>, a: nat, os: seq<Observation>)
    requires a in rows && Exhausted(Some(rows[a])) && forall k | 0 <= k < |os| :: os[k].Deadline? && os[k].remaining.None?
    ensures var after := StoredAll(Some(rows[a]), os);
            after.Some? && (a !in ChannelPool(accounts, rows[a := after.value], false) <==>
                            a !in accounts || !rows[a].peak.Junk? || forall k | 0 <= k < |os| :: !Observed(os[k]))
  {
    hide ChannelPool;
    StoredAllMeans(Some(rows[a]), os);
    NoReadings(os);
    var after := StoredAll(Some(rows[a]), os);
    PoolMembers(accounts, rows[a := after.value], false, a);
  }

  lemma {:induction false} NoReadings(os: seq<Observation>)
    requires forall k | 0 <= k < |os| :: os[k].remaining.None?
    ensures LastReading(os) == None
  {
    if os != [] {
      NoReadings(os[..|os| - 1]);
    }
  }

  // ---------------------------------------------------------------- the running peak

  predicate AtLeast(a: Option<real>, b: Option<real>) {
    b.Some? ==> a.Some? && a.value >= b.value
  }

  /**
    One write, of an observation or of a whole snapshot: the peak covers what is remaining, does not fall, and covers what was
    remaining, unless the old row is thrown away.
   */
  lemma PeakRises(stored: Option<Row>, p: Row, merge: bool)
    ensures var after := Written(stored, p, merge);
            && AtLeast(NumberOf(after.peak), PayloadRemaining(after)) && AtLeast(PeakOf(Some(after)), PeakOf(stored))
            && (Readable(stored) == stored ==> AtLeast(NumberOf(after.peak), RemainingOf(stored)))
            && (Readable(stored) != stored ==> after == Written(None, p, merge))
  {
  }

  function PeakOf(row: Option<Row>): Option<real> {
    if row.Some? then NumberOf(row.value.peak) else None
  }

  /**
    Over any observations, the peak at the end is at least every peak cached on the way and every reading made.  A peak that
    was only observed is another matter: see `PeakIs`.
   */
  lemma {:induction false} PeakCovers(row: Option<Row>, os: seq<Observation>, k: nat)
    requires k <= |os|
    ensures var after, at := StoredAll(row, os), StoredAll(row, os[..k]);
            AtLeast(PeakOf(after), PeakOf(at)) && (k < |os| ==> AtLeast(PeakOf(after), os[k].remaining))
    decreases |os|
  {
    hide Written, PayloadOf, PayloadRemaining;
    if k == |os| {
      assert os[..k] == os;
    } else {
      var front, last := os[..|os| - 1], os[|os| - 1];
      assert os == front + [last];
      StoredSnoc(row, front, last);
      LastPeak(StoredAll(row, front), last);
      PeakCovers(row, front, k);
      assert front[..k] == os[..k];
    }
  }

  lemma LastPeak(row: Option<Row>, o: Observation)
    ensures AtLeast(PeakOf(Stored(row, o)), PeakOf(row)) && AtLeast(PeakOf(Stored(row, o)), o.remaining)
  {
    PeakRises(row, PayloadOf(o), true);
    if o.remaining.Some? {
      OneStored(row, o);
    }
  }

  /** What a readable row knows of the greatest quota. */
  function Known(row: Option<Row>): Option<real> {
    Max(RemainingOf(Readable(row)), PeakOf(row))
  }

  /** The greatest quota reading. */
  function Readings(os: seq<Observation>): Option<real> {
    if os == [] then None else Max(os[0].remaining, Readings(os[1..]))
  }

  /** The first observed peak, if no quota was read before it or with it. */
  function LeadingPeak(os: seq<Observation>): Option<real> {
    if os == [] || os[0].remaining.Some? then None
    else if os[0].peak.Some? then os[0].peak
    else LeadingPeak(os[1..])
  }

  /** An observed peak counts only where nothing is known yet. */
  lemma OnePeak(row: Option<Row>, o: Observation)
    requires Observed(o)
    ensures var after := Stored(row, o);
            && Known(after) == PeakOf(after)
            && PeakOf(after) == if Known(row).Some? || o.remaining.Some? then Max(Known(row), o.remaining) else o.peak
  {
    OneStored(row, o);
    hide DaysUntil, LiveDeadline;
  }

  lemma {:induction false} KnownIs(row: Option<Row>, os: seq<Observation>)
    ensures Known(StoredAll(row, os)) == Max(if Known(row).Some? then Known(row) else LeadingPeak(os), Readings(os))
    ensures (exists k | 0 <= k < |os| :: Observed(os[k])) ==> PeakOf(StoredAll(row, os)) == Known(StoredAll(row, os))
    decreases |os|
  {
    hide Known, PeakOf, Stored, Observed, LiveDeadline;
    if os != [] {
      KnownIs(Stored(row, os[0]), os[1..]);
      KnownStep(row, os[0]);
      assert (exists k | 0 <= k < |os| :: Observed(os[k])) && !Observed(os[0]) ==> exists k | 0 <= k < |os[1..]| :: Observed(os[1..][k]) by {
        assert forall k | 1 <= k < |os| :: os[k] == os[1..][k - 1];
      }
      if forall k | 0 <= k < |os[1..]| :: !Observed(os[1..][k]) {
        StoredAllMeans(Stored(row, os[0]), os[1..]);
      }
    }
  }

  lemma KnownStep(row: Option<Row>, o: Observation)
    ensures Known(Stored(row, o)) == if Known(row).Some? || o.remaining.Some? then Max(Known(row), o.remaining) else o.peak
    ensures Observed(o) ==> PeakOf(Stored(row, o)) == Known(Stored(row, o))
  {
    if Observed(o) {
      OnePeak(row, o);
    }
  }

  /**
    The peak after any observations that recorded something: the greatest reading, and what the row knew before; only if it knew
    nothing, the first observed peak takes its place, unless a quota was read by then.  So an observed peak survives exactly when
    one of these is at least as great.
   */
  lemma PeakIs(row: Option<Row>, os: seq<Observation>, k: nat)
    requires k < |os| && Observed(os[k])
    ensures var before := if Known(row).Some? then Known(row) else LeadingPeak(os);
            && PeakOf(StoredAll(row, os)) == Max(before, Readings(os))
            && (AtLeast(PeakOf(StoredAll(row, os)), os[k].peak) <==> AtLeast(before, os[k].peak) || AtLeast(Readings(os), os[k].peak))
  {
    hide Known, PeakOf, StoredAll;
    KnownIs(row, os);
  }

  /** A peak observed together with a lower reading is lost, though it is the greatest number that was observed. */
  lemma ObservedPeakLost()
    ensures PeakOf(StoredAll(None, [Reading(Some(1.0), Some(5.0), "", 0.0)])) == Some(1.0)
  {
    var o := Reading(Some(1.0), Some(5.0), "", 0.0);
    assert [o][1..] == [];
    assert StoredAll(None, [o]) == StoredAll(Stored(None, o), []);
  }

  // ---------------------------------------------------------------- order of writers

  /** The same row but for who wrote last and when. */
  predicate SameFacts(a: Option<Row>, b: Option<Row>) {
    a.Some? == b.Some? && (a.Some? ==> a.value.(source := None, updatedAt := 0) == b.value.(source := None, updatedAt := 0))
  }

  /** A deadline alone and a reading may come in either order. */
  lemma WritersCommute(row: Option<Row>, d: Observation, r: Observation)
    requires d.Deadline? && d.remaining.None? && d.peak.None? && r.Reading?
    ensures SameFacts(Stored(Stored(row, d), r), Stored(Stored(row, r), d))
  {
    if Observed(d) && Observed(r) {
      KnownStep(row, d);
      KnownStep(Stored(row, d), r);
      KnownStep(row, r);
      KnownStep(Stored(row, r), d);
      OthersCommute(row, d, r);
      hide Stored, Known, Observed;
      assert PeakOf(Stored(Stored(row, d), r)) == PeakOf(Stored(Stored(row, r), d));
    }
  }

  /** Everything but the peak. */
  lemma OthersCommute(row: Option<Row>, d: Observation, r: Observation)
    requires d.Deadline? && d.remaining.None? && d.peak.None? && r.Reading? && Observed(d) && Observed(r)
    ensures var a, b := Stored(Stored(row, d), r), Stored(Stored(row, r), d);
            && a.Some? && b.Some?
            && a.value.(source := None, updatedAt := 0, peak := Absent) == b.value.(source := None, updatedAt := 0, peak := Absent)
  {
    hide Max, PayloadRemaining, DaysUntil;
  }
}
