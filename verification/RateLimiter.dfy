/**
  The per-account rate limiter (rate_limiter.py): first-in first-out pacing and a cap on requests in flight.

  Every body that runs under the limiter's lock is one atomic step.  Requests are tokens; any interleaving of their steps
  is a history.  Clock readings are taken outside the lock, so a step may act on a reading that is already stale.
 */
module RateLimiter {
  import opened Options

  const MAX_WAITERS := 256
  const PACING_LIMIT := 600.0

  type Token = nat

  // ---------------------------------------------------------------- settings

  /** A stored setting: a number, or something that is not a finite number. */
  datatype Raw = Unusable | Number(value: real)

  function Usable(raw: Raw, default: real): real {
    if raw.Unusable? || raw.value < 0.0 then default else raw.value
  }

  function Min(a: real, b: real): real {
    if b < a then b else a
  }

  /** The setting itself if it lies in range, else the nearer end; an unusable one counts as none. */
  function Interval(raw: Raw): (r: real)
    ensures 0.0 <= r <= PACING_LIMIT
    ensures raw.Number? && 0.0 <= raw.value <= PACING_LIMIT ==> r == raw.value
    ensures raw.Number? && raw.value > PACING_LIMIT ==> r == PACING_LIMIT
    ensures raw.Unusable? || raw.value < 0.0 ==> r == 0.0
  {
    Min(600.0, Usable(raw, 0.0))
  }

  function Cap(raw: Raw): (r: int)
    ensures 0 <= r <= 100
    ensures raw.Number? && 0.0 <= raw.value <= 100.0 ==> r as real <= raw.value < r as real + 1.0
    ensures raw.Number? && raw.value > 100.0 ==> r == 100
    ensures raw.Unusable? || raw.value < 0.0 ==> r == 0
  {
    var v := Usable(raw, 0.0).Floor;
    if v < 100 then v else 100
  }

  function Timeout(raw: Raw): (r: real)
    ensures 1.0 <= r <= 600.0
    ensures raw.Number? && 1.0 <= raw.value <= 600.0 ==> r == raw.value
    ensures raw.Number? && raw.value > 600.0 ==> r == 600.0
    ensures raw.Number? && 0.0 <= raw.value < 1.0 ==> r == 1.0
    ensures raw.Unusable? || raw.value < 0.0 ==> r == 120.0
  {
    var v := Min(600.0, Usable(raw, 120.0));
    if v < 1.0 then 1.0 else v
  }

  // ---------------------------------------------------------------- one account

  /** `lastStart` is None for minus infinity. */
  datatype Entry = Entry(active: int, lastStart: Option<real>, waiting: seq<Token>)

  const FRESH := Entry(0, None, [])

  predicate Idle(e: Entry, started: real) {
    e.active == 0 && e.waiting == [] && (e.lastStart.None? || started - e.lastStart.value > PACING_LIMIT)
  }

  /** The first waiter goes when the gap has passed and a slot is free. */
  function Polled(e: Entry, tok: Token, now: real, interval: real, cap: int): Option<Entry> {
    if e.waiting != [] && e.waiting[0] == tok && (e.lastStart.None? || e.lastStart.value + interval - now <= 0.0)
       && (cap == 0 || e.active < cap)
    then Some(Entry(e.active + 1, Some(now), e.waiting[1..]))
    else None
  }

  function Without(waiting: seq<Token>, tok: Token): seq<Token> {
    if waiting == [] then [] else if waiting[0] == tok then waiting[1..] else [waiting[0]] + Without(waiting[1..], tok)
  }

  // ---------------------------------------------------------------- the whole limiter

  datatype Phase = Waiting | Running | Done

  /** What a request keeps to itself: its account, the state object it holds, and when it joined. */
  datatype Local = Local(aid: int, ref: nat, since: real, phase: Phase)

  /** `heap` holds all state objects ever made; `table` says which one an account uses now. */
  datatype Sys = Sys(heap: seq<Entry>, table: map<int, nat>, tokens: map<Token, Local>, clock: real)

  const EMPTY := Sys([], map[], map[], 0.0)

  datatype Action =
    | Enqueue(tok: Token, aid: int, started: real)
    | Try(tok: Token, aid: int, now: real, interval: real, cap: int)
    | Leave(tok: Token, aid: int)    // timed out or cancelled before it was admitted
    | Release(tok: Token, aid: int)

  datatype Event = Event(at: real, action: Action)

  datatype Outcome = Joined | Full | Admitted | NotYet | Left | Released

  predicate Sound(s: Sys) {
    && (forall a | a in s.table :: s.table[a] < |s.heap|)
    && (forall t | t in s.tokens :: s.tokens[t].ref < |s.heap|)
  }

  predicate InPhase(s: Sys, tok: Token, aid: int, phase: Phase) {
    tok in s.tokens && s.tokens[tok].aid == aid && s.tokens[tok].phase == phase
  }

  /** What the program order of each request and the monotone clock allow. */
  predicate Enabled(s: Sys, e: Event) {
    && s.clock <= e.at
    && match e.action
       case Enqueue(tok, _, started) => tok !in s.tokens && started <= e.at
       case Try(tok, aid, now, interval, cap) =>
         InPhase(s, tok, aid, Waiting) && s.tokens[tok].since <= now <= e.at && 0.0 <= interval <= PACING_LIMIT && 0 <= cap
       case Leave(tok, aid) => InPhase(s, tok, aid, Waiting)
       case Release(tok, aid) => InPhase(s, tok, aid, Running)
  }

  function Prune(s: Sys, started: real): map<int, nat>
    requires Sound(s)
  {
    map a | a in s.table && !Idle(s.heap[s.table[a]], started) :: s.table[a]
  }

  /** Look the account up, or give it a new state object. */
  function WithEntry(s: Sys, aid: int): (r: Sys)
    requires Sound(s)
    ensures Sound(r) && aid in r.table
  {
    if aid in s.table then s else s.(heap := s.heap + [FRESH], table := s.table[aid := |s.heap|])
  }

  function SetEntry(s: Sys, ref: nat, e: Entry): (r: Sys)
    requires Sound(s) && ref < |s.heap|
    ensures Sound(r)
  {
    s.(heap := s.heap[ref := e])
  }

  function SetToken(s: Sys, tok: Token, l: Local): (r: Sys)
    requires Sound(s) && l.ref < |s.heap|
    ensures Sound(r)
  {
    s.(tokens := s.tokens[tok := l])
  }

  /** Joining; `prune` says whether long-idle entries are dropped first, as the source does. */
  function Enter(s: Sys, tok: Token, aid: int, started: real, prune: bool): (r: (Sys, Outcome))
    requires Sound(s)
    ensures Sound(r.0)
  {
    var s1 := WithEntry(if prune then s.(table := Prune(s, started)) else s, aid);
    var ref := s1.table[aid];
    var e := s1.heap[ref];
    if |e.waiting| >= MAX_WAITERS then (SetToken(s1, tok, Local(aid, ref, s.clock, Done)), Full)
    else (SetToken(SetEntry(s1, ref, e.(waiting := e.waiting + [tok])), tok, Local(aid, ref, s.clock, Waiting)), Joined)
  }

  function Step(s: Sys, e: Event, prune: bool): (r: (Sys, Outcome))
    requires Sound(s) && Enabled(s, e)
    ensures Sound(r.0)
  {
    var s0 := s.(clock := e.at);
    match e.action
    case Enqueue(tok, aid, started) => Enter(s0, tok, aid, started, prune)
    case Try(tok, aid, now, interval, cap) =>
      var l := s0.tokens[tok];
      var p := Polled(s0.heap[l.ref], tok, now, interval, cap);
      if p.None? then (s0, NotYet) else (SetToken(SetEntry(s0, l.ref, p.value), tok, l.(phase := Running)), Admitted)
    case Leave(tok, aid) =>
      var l := s0.tokens[tok];
      var en := s0.heap[l.ref];
      (SetToken(SetEntry(s0, l.ref, en.(waiting := Without(en.waiting, tok))), tok, l.(phase := Done)), Left)
    case Release(tok, aid) =>
      var l := s0.tokens[tok];
      var en := s0.heap[l.ref];
      (SetToken(SetEntry(s0, l.ref, en.(active := en.active - 1)), tok, l.(phase := Done)), Released)
  }

  /** What happened: each event with its outcome. */
  datatype Item = Item(event: Event, outcome: Outcome)

  /** The limiter after a history, if the history can happen. */
  function After(h: seq<Item>, prune: bool): (r: Option<Sys>)
    ensures r.Some? ==> Sound(r.value)
  {
    if h == [] then Some(EMPTY)
    else
      var before := After(h[..|h| - 1], prune);
      var last := h[|h| - 1];
      if before.Some? && Enabled(before.value, last.event) && Step(before.value, last.event, prune).1 == last.outcome
      then Some(Step(before.value, last.event, prune).0)
      else None
  }
}
