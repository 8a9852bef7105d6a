/** What the limiter does over every history, stated on the history alone. */
module RateLimiterTheorems {
  import opened Options
  import opened RateLimiter

  // ---------------------------------------------------------------- reading a history

  predicate Joins(it: Item, aid: int) {
    it.event.action.Enqueue? && it.event.action.aid == aid && it.outcome == Joined
  }

  predicate Starts(it: Item, aid: int) {
    it.event.action.Try? && it.event.action.aid == aid && it.outcome == Admitted
  }

  predicate Quits(it: Item, aid: int) {
    it.event.action.Leave? && it.event.action.aid == aid
  }

  predicate Frees(it: Item, aid: int) {
    it.event.action.Release? && it.event.action.aid == aid
  }

  /** Requests admitted and not yet released. */
  function InFlight(h: seq<Item>, aid: int): int {
    if h == [] then 0
    else
      var n, it := InFlight(h[..|h| - 1], aid), h[|h| - 1];
      if Starts(it, aid) then n + 1 else if Frees(it, aid) then n - 1 else n
  }

  /** The request was admitted or left. */
  ghost predicate Departed(h: seq<Item>, aid: int, tok: Token) {
    exists i :: 0 <= i < |h| && (Starts(h[i], aid) || Quits(h[i], aid)) && h[i].event.action.tok == tok
  }

  ghost predicate HasJoined(h: seq<Item>, aid: int, tok: Token) {
    exists i :: 0 <= i < |h| && Joins(h[i], aid) && h[i].event.action.tok == tok
  }

  /** Both joined, the first one earlier. */
  ghost predicate JoinedBefore(h: seq<Item>, aid: int, first: Token, second: Token) {
    exists i, j :: 0 <= i < j < |h| && Joins(h[i], aid) && Joins(h[j], aid)
                   && h[i].event.action.tok == first && h[j].event.action.tok == second
  }

  /** Everyone who joined the account earlier is gone. */
  ghost predicate IsNext(h: seq<Item>, aid: int, tok: Token) {
    forall other | JoinedBefore(h, aid, other, tok) :: Departed(h, aid, other)
  }

  /** Every earlier start of the account is at least the interval ago. */
  predicate Paced(h: seq<Item>, aid: int, now: real, interval: real) {
    forall i | 0 <= i < |h| && Starts(h[i], aid) :: h[i].event.action.now + interval <= now
  }

  /** When a poll must be admitted. */
  ghost predicate Due(h: seq<Item>, tok: Token, aid: int, now: real, interval: real, cap: int) {
    IsNext(h, aid, tok) && Paced(h, aid, now, interval) && (cap == 0 || InFlight(h, aid) < cap)
  }

  /** Those who joined and are not gone, in the order they joined. */
  function Pending(h: seq<Item>, aid: int): seq<Token> {
    if h == [] then []
    else
      var p, it := Pending(h[..|h| - 1], aid), h[|h| - 1];
      if Joins(it, aid) then p + [it.event.action.tok]
      else if Starts(it, aid) || Quits(it, aid) then Without(p, it.event.action.tok)
      else p
  }

  function LastStart(h: seq<Item>, aid: int): Option<real> {
    if h == [] then None
    else if Starts(h[|h| - 1], aid) then Some(h[|h| - 1].event.action.now)
    else LastStart(h[..|h| - 1], aid)
  }

  // ---------------------------------------------------------------- the invariant

  /** The entry that an account has, or would get. */
  function EntryOf(s: Sys, aid: int): Entry
    requires Sound(s)
  {
    if aid in s.table then s.heap[s.table[aid]] else FRESH
  }

  /** The last start is too old to matter to anyone waiting or still to come. */
  ghost predicate Forgotten(h: seq<Item>, s: Sys, aid: int) {
    LastStart(h, aid).Some? ==>
      && LastStart(h, aid).value + PACING_LIMIT < s.clock
      && forall t | t in s.tokens && InPhase(s, t, aid, Waiting) :: LastStart(h, aid).value + PACING_LIMIT < s.tokens[t].since
  }

  ghost predicate EntryOk(h: seq<Item>, s: Sys, aid: int)
    requires Sound(s)
  {
    var e := EntryOf(s, aid);
    && e.waiting == Pending(h, aid) && e.active == InFlight(h, aid)
    && (e.lastStart == LastStart(h, aid) || (e.lastStart == None && Forgotten(h, s, aid)))
  }

  /** A live request holds the state object that the table has for its account. */
  predicate RefOk(s: Sys, t: Token)
    requires t in s.tokens
  {
    s.tokens[t].phase != Done ==> s.tokens[t].aid in s.table && s.table[s.tokens[t].aid] == s.tokens[t].ref
  }

  predicate Distinct(w: seq<Token>) {
    forall i, j | 0 <= i < j < |w| :: w[i] != w[j]
  }

  ghost predicate QueueOk(h: seq<Item>, s: Sys, aid: int) {
    && Distinct(Pending(h, aid))
    && forall t :: t in Pending(h, aid) <==> InPhase(s, t, aid, Waiting)
  }

  ghost function RunningOf(s: Sys, aid: int): set<Token> {
    set t | t in s.tokens && InPhase(s, t, aid, Running)
  }

  predicate Separate(table: map<int, nat>) {
    forall a, b | a in table && b in table && a != b :: table[a] != table[b]
  }

  ghost predicate Inv(h: seq<Item>, s: Sys) {
    && Sound(s) && Separate(s.table)
    && (forall a :: EntryOk(h, s, a) && QueueOk(h, s, a) && InFlight(h, a) == |RunningOf(s, a)|)
    && (forall t | t in s.tokens :: RefOk(s, t) && s.tokens[t].since <= s.clock)
  }

  lemma {:induction false} WithoutMembers(w: seq<Token>, tok: Token)
    requires Distinct(w)
    ensures forall t :: t in Without(w, tok) <==> t in w && t != tok
  {
    if w != [] {
      assert forall t :: t in w <==> t == w[0] || t in w[1..];
      if w[0] != tok {
        assert Distinct(w[1..]);
        WithoutMembers(w[1..], tok);
      }
    }
  }

  lemma {:induction false} WithoutDistinct(w: seq<Token>, tok: Token)
    requires Distinct(w)
    ensures Distinct(Without(w, tok)) && forall t :: t in Without(w, tok) <==> t in w && t != tok
  {
    WithoutMembers(w, tok);
    if w != [] && w[0] != tok {
      assert Distinct(w[1..]);
      WithoutDistinct(w[1..], tok);
      assert w[0] !in w[1..];
    }
  }

  lemma Extended(h: seq<Item>, it: Item)
    ensures (h + [it])[..|h|] == h && (h + [it])[|h|] == it
  {
  }

  /** What one step does to its own account, with the other accounts left alone. */
  ghost predicate Touches(s: Sys, n: Sys, aid: int, tok: Token)
    requires Sound(s) && Sound(n)
  {
    && s.clock <= n.clock
    && (forall a | a != aid :: EntryOf(n, a) == EntryOf(s, a))
    && (forall a | a in s.table :: a in n.table && n.table[a] == s.table[a])
    && (forall t | t != tok :: (t in s.tokens <==> t in n.tokens) && (t in s.tokens ==> s.tokens[t] == n.tokens[t]))
  }

  /** The other accounts keep their part of the invariant. */
  lemma OthersKeep(h: seq<Item>, s: Sys, n: Sys, it: Item, aid: int, a: int)
    requires Inv(h, s) && Sound(n) && Touches(s, n, aid, it.event.action.tok) && it.event.action.aid == aid && a != aid
    requires it.event.action.tok in s.tokens ==> s.tokens[it.event.action.tok].aid == aid
    requires it.event.action.tok in n.tokens ==> n.tokens[it.event.action.tok].aid == aid
    ensures EntryOk(h + [it], n, a) && QueueOk(h + [it], n, a) && InFlight(h + [it], a) == |RunningOf(n, a)|
  {
    Extended(h, it);
    hide Idle, Polled;
    var g := h + [it];
    assert EntryOk(h, s, a) && QueueOk(h, s, a);
    assert Pending(g, a) == Pending(h, a) && InFlight(g, a) == InFlight(h, a) && LastStart(g, a) == LastStart(h, a);
    assert forall t, p :: InPhase(n, t, a, p) <==> InPhase(s, t, a, p);
    assert RunningOf(n, a) == RunningOf(s, a);
  }

  // ---------------------------------------------------------------- the clock and the pruning

  lemma TickKeeps(h: seq<Item>, s: Sys, at: real)
    requires Inv(h, s) && s.clock <= at
    ensures Inv(h, s.(clock := at))
  {
    var n := s.(clock := at);
    forall a ensures EntryOk(h, n, a) && QueueOk(h, n, a) && InFlight(h, a) == |RunningOf(n, a)| {
      assert EntryOk(h, s, a) && QueueOk(h, s, a);
      assert forall t, p :: InPhase(n, t, a, p) <==> InPhase(s, t, a, p);
      assert RunningOf(n, a) == RunningOf(s, a);
    }
    assert forall t | t in n.tokens :: RefOk(s, t);
  }

  /** Dropping idle entries loses only start times that are too old to matter. */
  lemma PruneKeeps(h: seq<Item>, s: Sys, started: real)
    requires Inv(h, s) && started <= s.clock
    ensures Inv(h, s.(table := Prune(s, started)))
  {
    var n := s.(table := Prune(s, started));
    forall a ensures EntryOk(h, n, a) && QueueOk(h, n, a) && InFlight(h, a) == |RunningOf(n, a)| {
      assert EntryOk(h, s, a) && QueueOk(h, s, a);
      assert forall t, p :: InPhase(n, t, a, p) <==> InPhase(s, t, a, p);
      assert RunningOf(n, a) == RunningOf(s, a);
    }
    forall t | t in n.tokens ensures RefOk(n, t) {
      var a := s.tokens[t].aid;
      assert RefOk(s, t) && EntryOk(h, s, a) && QueueOk(h, s, a);
      if s.tokens[t].phase == Waiting {
        assert InPhase(s, t, a, Waiting);
        assert t in Pending(h, a);
      } else if s.tokens[t].phase == Running {
        assert t in RunningOf(s, a);
      }
    }
  }

  // ---------------------------------------------------------------- one step of one account

  /** The parts of the invariant that the step of one token can break. */
  lemma StepKeeps(h: seq<Item>, s: Sys, n: Sys, it: Item)
    requires Inv(h, s) && Sound(n)
    requires var a := it.event.action; Touches(s, n, a.aid, a.tok) && a.tok in n.tokens && n.tokens[a.tok].aid == a.aid
    requires var a := it.event.action; a.tok in s.tokens ==> s.tokens[a.tok].aid == a.aid
    requires var a := it.event.action; EntryOk(h + [it], n, a.aid) && QueueOk(h + [it], n, a.aid)
                                       && InFlight(h + [it], a.aid) == |RunningOf(n, a.aid)|
    requires Separate(n.table) && RefOk(n, it.event.action.tok) && n.tokens[it.event.action.tok].since <= n.clock
    ensures Inv(h + [it], n)
  {
    hide EntryOk, QueueOk, InFlight, RunningOf;
    var aid, tok := it.event.action.aid, it.event.action.tok;
    forall a ensures EntryOk(h + [it], n, a) && QueueOk(h + [it], n, a) && InFlight(h + [it], a) == |RunningOf(n, a)| {
      if a != aid {
        OthersKeep(h, s, n, it, aid, a);
      }
    }
    forall t | t in n.tokens ensures RefOk(n, t) && n.tokens[t].since <= n.clock {
      if t != tok {
        assert RefOk(s, t);
      }
    }
  }

  /** One entry and one token replaced: other accounts see nothing. */
  lemma UpdateTouches(s: Sys, aid: int, tok: Token, e: Entry, l: Local)
    requires Sound(s) && Separate(s.table) && aid in s.table && l.ref == s.table[aid]
    ensures Touches(s, SetToken(SetEntry(s, l.ref, e), tok, l), aid, tok)
    ensures EntryOf(SetToken(SetEntry(s, l.ref, e), tok, l), aid) == e
  {
  }

  lemma HeldEntry(h: seq<Item>, s: Sys, tok: Token, aid: int, phase: Phase)
    requires Inv(h, s) && InPhase(s, tok, aid, phase) && phase != Done
    ensures aid in s.table && s.table[aid] == s.tokens[tok].ref && s.heap[s.tokens[tok].ref] == EntryOf(s, aid)
    ensures EntryOk(h, s, aid) && QueueOk(h, s, aid) && InFlight(h, aid) == |RunningOf(s, aid)|
    ensures s.tokens[tok].since <= s.clock
  {
    assert RefOk(s, tok);
  }

  lemma TryKeeps(h: seq<Item>, s: Sys, e: Event)
    requires Inv(h, s) && Enabled(s, e) && s.clock == e.at && e.action.Try?
    ensures var r := Step(s, e, false); Inv(h + [Item(e, r.1)], r.0)
  {
    var tok, aid, now := e.action.tok, e.action.aid, e.action.now;
    HeldEntry(h, s, tok, aid, Waiting);
    var r := Step(s, e, false);
    var n, it := r.0, Item(e, r.1);
    Extended(h, it);
    var l := s.tokens[tok];
    var en := s.heap[l.ref];
    var p := Polled(en, tok, now, e.action.interval, e.action.cap);
    if p.None? {
      assert n == s;
      UnchangedKeeps(h, s, it, aid);
      StepKeeps(h, s, n, it);
    } else {
      UpdateTouches(s, aid, tok, p.value, l.(phase := Running));
      AdmitQueue(h, s, n, it);
      StepKeeps(h, s, n, it);
    }
  }

  lemma UnchangedKeeps(h: seq<Item>, s: Sys, it: Item, aid: int)
    requires Inv(h, s) && it.outcome == NotYet && it.event.action.Try?
    ensures EntryOk(h + [it], s, aid) && QueueOk(h + [it], s, aid) && InFlight(h + [it], aid) == |RunningOf(s, aid)|
  {
    Extended(h, it);
    assert EntryOk(h, s, aid) && QueueOk(h, s, aid);
  }

  /** The waiting list and the running set after a token changed phase. */
  lemma PhaseMoves(s: Sys, n: Sys, aid: int, tok: Token)
    requires Sound(s) && Sound(n) && Touches(s, n, aid, tok) && tok in s.tokens && tok in n.tokens
    requires s.tokens[tok].aid == n.tokens[tok].aid == aid
    ensures forall t, p | t != tok :: InPhase(n, t, aid, p) <==> InPhase(s, t, aid, p)
    ensures var before, after := s.tokens[tok].phase == Running, n.tokens[tok].phase == Running;
            |RunningOf(n, aid)| == |RunningOf(s, aid)| + (if after then 1 else 0) - (if before then 1 else 0)
  {
    hide EntryOf;
    assert forall t, p | t != tok :: InPhase(n, t, aid, p) <==> InPhase(s, t, aid, p);
    ToggleCounts(RunningOf(s, aid), RunningOf(n, aid), tok);
  }

  lemma ToggleCounts(x: set<Token>, y: set<Token>, tok: Token)
    requires forall t | t != tok :: t in x <==> t in y
    ensures |y| == |x| + (if tok in y then 1 else 0) - (if tok in x then 1 else 0)
  {
    var rest := x - {tok};
    assert rest == y - {tok};
    assert x == if tok in x then rest + {tok} else rest;
    assert y == if tok in y then rest + {tok} else rest;
  }

  lemma AdmitQueue(h: seq<Item>, s: Sys, n: Sys, it: Item)
    requires Inv(h, s) && it.event.action.Try? && it.outcome == Admitted && Enabled(s, it.event) && s.clock == it.event.at
    requires Step(s, it.event, false) == (n, Admitted)
    requires var a := it.event.action; Touches(s, n, a.aid, a.tok)
    ensures var aid := it.event.action.aid; EntryOk(h + [it], n, aid) && QueueOk(h + [it], n, aid)
                                            && InFlight(h + [it], aid) == |RunningOf(n, aid)|
  {
    var tok, aid := it.event.action.tok, it.event.action.aid;
    Extended(h, it);
    HeldEntry(h, s, tok, aid, Waiting);
    PhaseMoves(s, n, aid, tok);
    WithoutDistinct(Pending(h, aid), tok);
    assert Pending(h + [it], aid) == Pending(h, aid)[1..];
  }

  lemma LeaveKeeps(h: seq<Item>, s: Sys, e: Event)
    requires Inv(h, s) && Enabled(s, e) && s.clock == e.at && e.action.Leave?
    ensures var r := Step(s, e, false); Inv(h + [Item(e, r.1)], r.0)
  {
    var tok, aid := e.action.tok, e.action.aid;
    HeldEntry(h, s, tok, aid, Waiting);
    var l := s.tokens[tok];
    var en := s.heap[l.ref];
    var r := Step(s, e, false);
    var n, it := r.0, Item(e, r.1);
    Extended(h, it);
    UpdateTouches(s, aid, tok, en.(waiting := Without(en.waiting, tok)), l.(phase := Done));
    PhaseMoves(s, n, aid, tok);
    WithoutDistinct(Pending(h, aid), tok);
    StepKeeps(h, s, n, it);
  }

  lemma ReleaseKeeps(h: seq<Item>, s: Sys, e: Event)
    requires Inv(h, s) && Enabled(s, e) && s.clock == e.at && e.action.Release?
    ensures var r := Step(s, e, false); Inv(h + [Item(e, r.1)], r.0)
  {
    var tok, aid := e.action.tok, e.action.aid;
    HeldEntry(h, s, tok, aid, Running);
    var l := s.tokens[tok];
    var en := s.heap[l.ref];
    var r := Step(s, e, false);
    var n, it := r.0, Item(e, r.1);
    Extended(h, it);
    UpdateTouches(s, aid, tok, en.(active := en.active - 1), l.(phase := Done));
    PhaseMoves(s, n, aid, tok);
    StepKeeps(h, s, n, it);
  }

  lemma EnterKeeps(h: seq<Item>, s: Sys, e: Event)
    requires Inv(h, s) && Enabled(s, e) && s.clock == e.at && e.action.Enqueue?
    ensures var r := Enter(s, e.action.tok, e.action.aid, e.action.started, false); Inv(h + [Item(e, r.1)], r.0)
  {
    var tok, aid := e.action.tok, e.action.aid;
    var r := Enter(s, tok, aid, e.action.started, false);
    var n, it := r.0, Item(e, r.1);
    Extended(h, it);
    assert EntryOk(h, s, aid) && QueueOk(h, s, aid);
    var s1 := WithEntry(s, aid);
    assert Separate(s1.table) && EntryOf(s1, aid) == EntryOf(s, aid);
    assert Touches(s, s1, aid, tok);
    assert Touches(s1, n, aid, tok);
    JoinQueue(h, s, n, it);
    StepKeeps(h, s, n, it);
  }

  /** A newcomer stands at the end of the line, or finds it full and leaves no trace. */
  lemma JoinQueue(h: seq<Item>, s: Sys, n: Sys, it: Item)
    requires Inv(h, s) && Sound(n) && it.event.action.Enqueue? && (it.outcome == Joined || it.outcome == Full)
    requires var a := it.event.action; Touches(s, n, a.aid, a.tok) && a.tok !in s.tokens && a.tok in n.tokens
                                       && n.tokens[a.tok].aid == a.aid && n.tokens[a.tok].since == n.clock == s.clock
                                       && n.tokens[a.tok].phase == (if it.outcome == Joined then Waiting else Done)
    requires var a := it.event.action; var e := EntryOf(s, a.aid);
             EntryOf(n, a.aid) == if it.outcome == Joined then e.(waiting := e.waiting + [a.tok]) else e
    ensures var aid := it.event.action.aid; EntryOk(h + [it], n, aid) && QueueOk(h + [it], n, aid)
                                            && InFlight(h + [it], aid) == |RunningOf(n, aid)|
  {
    var tok, aid := it.event.action.tok, it.event.action.aid;
    Extended(h, it);
    assert EntryOk(h, s, aid) && QueueOk(h, s, aid);
    assert forall t, p | t != tok :: InPhase(n, t, aid, p) <==> InPhase(s, t, aid, p);
    assert RunningOf(n, aid) == RunningOf(s, aid);
    assert !InPhase(s, tok, aid, Waiting);
  }

  // ---------------------------------------------------------------- every history

  lemma StepInv(h: seq<Item>, s: Sys, e: Event, prune: bool)
    requires Inv(h, s) && Enabled(s, e)
    ensures var r := Step(s, e, prune); Inv(h + [Item(e, r.1)], r.0)
  {
    hide Inv, Enter, Prune, SetToken, SetEntry, Polled;
    TickKeeps(h, s, e.at);
    InvSound(h, s);
    var t := s.(clock := e.at);
    match e.action
    case Enqueue(tok, aid, started) =>
      var u := if prune then t.(table := Prune(t, started)) else t;
      if prune { PruneKeeps(h, t, started); }
      EnterKeeps(h, u, e);
      EnterAfterPrune(t, tok, aid, started, prune);
    case Try(_, _, _, _, _) => TryKeeps(h, t, e);
    case Leave(_, _) => LeaveKeeps(h, t, e);
    case Release(_, _) => ReleaseKeeps(h, t, e);
  }

  lemma InvSound(h: seq<Item>, s: Sys)
    requires Inv(h, s)
    ensures Sound(s)
  {
  }

  lemma EnterAfterPrune(s: Sys, tok: Token, aid: int, started: real, prune: bool)
    requires Sound(s)
    ensures Enter(s, tok, aid, started, prune) ==
              Enter(if prune then s.(table := Prune(s, started)) else s, tok, aid, started, false)
  {
  }

  /** Each prefix of a history is a history. */
  lemma Unroll(h: seq<Item>, prune: bool)
    requires h != [] && After(h, prune).Some?
    ensures var before, last := After(h[..|h| - 1], prune), h[|h| - 1];
            && before.Some? && Enabled(before.value, last.event)
            && Step(before.value, last.event, prune) == (After(h, prune).value, last.outcome)
            && last == Item(last.event, last.outcome) && h == h[..|h| - 1] + [last]
  {
    hide Enabled, Step;
  }

  lemma {:induction false} Reached(h: seq<Item>, prune: bool)
    requires After(h, prune).Some?
    ensures Inv(h, After(h, prune).value)
  {
    hide Enabled, Step;
    if h == [] {
      EmptyInv();
    } else {
      Unroll(h, prune);
      Reached(h[..|h| - 1], prune);
      StepInv(h[..|h| - 1], After(h[..|h| - 1], prune).value, h[|h| - 1].event, prune);
    }
  }

  lemma EmptyInv()
    ensures Inv([], EMPTY)
  {
    forall a ensures RunningOf(EMPTY, a) == {} {
    }
  }

  /** Every request that the history names is known. */
  lemma {:induction false} AllKnown(h: seq<Item>, prune: bool)
    requires After(h, prune).Some?
    ensures forall i | 0 <= i < |h| :: h[i].event.action.tok in After(h, prune).value.tokens
  {
    hide Polled, Prune;
    if h != [] {
      Unroll(h, prune);
      AllKnown(h[..|h| - 1], prune);
    }
  }

  /** No request joins twice. */
  lemma {:induction false} JoinsOnce(h: seq<Item>, prune: bool)
    requires After(h, prune).Some?
    ensures forall i, j | 0 <= i < j < |h| && h[j].event.action.Enqueue? :: h[i].event.action.tok != h[j].event.action.tok
  {
    hide Step;
    if h != [] {
      Unroll(h, prune);
      AllKnown(h[..|h| - 1], prune);
      JoinsOnce(h[..|h| - 1], prune);
      var g := h[..|h| - 1];
      assert forall i | 0 <= i < |g| :: h[i] == g[i];
    }
  }

  lemma {:induction false} PendingMembers(h: seq<Item>, prune: bool, aid: int)
    requires After(h, prune).Some?
    ensures forall t :: t in Pending(h, aid) <==> HasJoined(h, aid, t) && !Departed(h, aid, t)
  {
    if h != [] {
      Unroll(h, prune);
      hide Step, Inv, Without;
      var g, it := h[..|h| - 1], h[|h| - 1];
      PendingMembers(g, prune, aid);
      Reached(g, prune);
      PendingDistinct(g, After(g, prune).value, aid);
      WithoutDistinct(Pending(g, aid), it.event.action.tok);
      AllKnown(g, prune);
      forall t ensures t in Pending(h, aid) <==> HasJoined(h, aid, t) && !Departed(h, aid, t) {
        LastItem(h, aid, t);
      }
    }
  }

  lemma PendingDistinct(h: seq<Item>, s: Sys, aid: int)
    requires Inv(h, s)
    ensures Distinct(Pending(h, aid)) && forall t :: t in Pending(h, aid) <==> InPhase(s, t, aid, Waiting)
  {
    assert QueueOk(h, s, aid);
  }

  lemma LastItem(h: seq<Item>, aid: int, t: Token)
    requires h != []
    ensures var g, it := h[..|h| - 1], h[|h| - 1];
            && (HasJoined(h, aid, t) <==> HasJoined(g, aid, t) || (Joins(it, aid) && it.event.action.tok == t))
            && (Departed(h, aid, t) <==> Departed(g, aid, t) || ((Starts(it, aid) || Quits(it, aid)) && it.event.action.tok == t))
  {
    hide Joins, Starts, Quits;
    var g, it := h[..|h| - 1], h[|h| - 1];
    assert forall i | 0 <= i < |g| :: h[i] == g[i];
    if HasJoined(g, aid, t) {
      var i :| 0 <= i < |g| && Joins(g[i], aid) && g[i].event.action.tok == t;
      assert h[i] == g[i];
    }
    if Departed(g, aid, t) {
      var i :| 0 <= i < |g| && (Starts(g[i], aid) || Quits(g[i], aid)) && g[i].event.action.tok == t;
      assert h[i] == g[i];
    }
  }

  // ---------------------------------------------------------------- the line in front of an account

  lemma BeforeGrows(h: seq<Item>, aid: int, x: Token, y: Token)
    requires h != [] && JoinedBefore(h[..|h| - 1], aid, x, y)
    ensures JoinedBefore(h, aid, x, y)
  {
    hide Joins;
    var g := h[..|h| - 1];
    var i, j :| 0 <= i < j < |g| && Joins(g[i], aid) && Joins(g[j], aid)
                && g[i].event.action.tok == x && g[j].event.action.tok == y;
    assert h[i] == g[i] && h[j] == g[j];
  }

  ghost predicate InJoinOrder(h: seq<Item>, aid: int, w: seq<Token>) {
    forall i, j | 0 <= i < j < |w| :: JoinedBefore(h, aid, w[i], w[j])
  }

  lemma {:induction false} WithoutInOrder(h: seq<Item>, aid: int, w: seq<Token>, tok: Token)
    requires InJoinOrder(h, aid, w)
    ensures InJoinOrder(h, aid, Without(w, tok)) && forall t | t in Without(w, tok) :: t in w
  {
    hide JoinedBefore;
    if w != [] && w[0] != tok {
      assert InJoinOrder(h, aid, w[1..]);
      WithoutInOrder(h, aid, w[1..], tok);
      var rest := Without(w[1..], tok);
      forall j | 0 <= j < |rest| ensures JoinedBefore(h, aid, w[0], rest[j]) {
        assert rest[j] in w[1..];
      }
    }
  }

  lemma {:induction false} PendingInOrder(h: seq<Item>, prune: bool, aid: int)
    requires After(h, prune).Some?
    ensures InJoinOrder(h, aid, Pending(h, aid))
  {
    if h != [] {
      Unroll(h, prune);
      hide Step, JoinedBefore, HasJoined, Departed;
      var g, it := h[..|h| - 1], h[|h| - 1];
      var p := Pending(g, aid);
      PendingInOrder(g, prune, aid);
      forall i, j | 0 <= i < j < |p| ensures JoinedBefore(h, aid, p[i], p[j]) {
        BeforeGrows(h, aid, p[i], p[j]);
      }
      assert InJoinOrder(h, aid, p);
      WithoutInOrder(h, aid, p, it.event.action.tok);
      if Joins(it, aid) {
        forall i | 0 <= i < |p| ensures JoinedBefore(h, aid, p[i], it.event.action.tok) {
          PendingMembers(g, prune, aid);
          assert p[i] in p;
          LastJoined(h, aid, p[i]);
        }
      }
    }
  }

  lemma LastJoined(h: seq<Item>, aid: int, t: Token)
    requires h != [] && HasJoined(h[..|h| - 1], aid, t) && Joins(h[|h| - 1], aid)
    ensures JoinedBefore(h, aid, t, h[|h| - 1].event.action.tok)
  {
    hide Joins;
    var g := h[..|h| - 1];
    var i :| 0 <= i < |g| && Joins(g[i], aid) && g[i].event.action.tok == t;
    assert h[i] == g[i];
  }

  lemma NotBothWays(h: seq<Item>, prune: bool, aid: int, x: Token, y: Token)
    requires After(h, prune).Some? && JoinedBefore(h, aid, x, y)
    ensures !JoinedBefore(h, aid, y, x) && HasJoined(h, aid, x) && HasJoined(h, aid, y)
  {
    JoinsOnce(h, prune);
    hide After, Starts, Quits;
  }

  /** The head of the line is the one before whom nobody still waits. */
  lemma HeadIsNext(h: seq<Item>, prune: bool, aid: int, tok: Token)
    requires After(h, prune).Some? && tok in Pending(h, aid)
    ensures Pending(h, aid)[0] == tok <==> IsNext(h, aid, tok)
  {
    PendingMembers(h, prune, aid);
    PendingInOrder(h, prune, aid);
    hide After, JoinedBefore, Departed, HasJoined, Pending;
    var p := Pending(h, aid);
    if p[0] == tok {
      forall other | JoinedBefore(h, aid, other, tok) ensures Departed(h, aid, other) {
        NotBothWays(h, prune, aid, other, tok);
        assert other !in p by {
          assert forall k | 0 < k < |p| :: JoinedBefore(h, aid, p[0], p[k]);
        }
      }
    } else {
      var k :| 0 <= k < |p| && p[k] == tok;
      assert JoinedBefore(h, aid, p[0], tok);
      assert p[0] in p && !Departed(h, aid, p[0]);
    }
  }

  // ---------------------------------------------------------------- the starts of an account

  /** The last start is the latest one. */
  ghost predicate StartsEnd(h: seq<Item>, aid: int) {
    var l := LastStart(h, aid);
    && (l.Some? ==> exists i :: 0 <= i < |h| && Starts(h[i], aid) && h[i].event.action.now == l.value)
    && (forall i | 0 <= i < |h| && Starts(h[i], aid) :: l.Some? && h[i].event.action.now <= l.value)
  }

  /** An admitted poll reads a clock no earlier than the last start plus its interval. */
  lemma AdmittedLate(h: seq<Item>, s: Sys, e: Event)
    requires Inv(h, s) && Enabled(s, e) && e.action.Try?
    ensures var en := EntryOf(s, e.action.aid); var l := LastStart(h, e.action.aid);
            (en.lastStart.None? || en.lastStart.value + e.action.interval - e.action.now <= 0.0)
            <==> (l.None? || l.value + e.action.interval <= e.action.now)
  {
    HeldEntry(h, s, e.action.tok, e.action.aid, Waiting);
    assert InPhase(s, e.action.tok, e.action.aid, Waiting);
  }

  lemma AdmitsWhen(h: seq<Item>, s: Sys, e: Event, prune: bool)
    requires Inv(h, s) && Enabled(s, e) && e.action.Try?
    ensures var a := e.action; var l := LastStart(h, a.aid); var p := Pending(h, a.aid);
            && a.tok in p
            && (Step(s, e, prune).1 == Admitted <==>
               p[0] == a.tok && (l.None? || l.value + a.interval <= a.now) && (a.cap == 0 || InFlight(h, a.aid) < a.cap))
  {
    AdmittedLate(h, s, e);
    HeldEntry(h, s, e.action.tok, e.action.aid, Waiting);
  }

  lemma {:induction false} StartsOrdered(h: seq<Item>, prune: bool, aid: int)
    requires After(h, prune).Some?
    ensures StartsEnd(h, aid)
  {
    if h != [] {
      Unroll(h, prune);
      var g, it := h[..|h| - 1], h[|h| - 1];
      Reached(g, prune);
      StartsOrdered(g, prune, aid);
      if Starts(it, aid) {
        AdmitsWhen(g, After(g, prune).value, it.event, prune);
      }
      hide After, Step, Inv, Enabled, Pending, InFlight;
      assert forall i | 0 <= i < |g| :: h[i] == g[i];
      StartsEndExtends(h, aid);
    }
  }

  lemma StartsEndExtends(h: seq<Item>, aid: int)
    requires h != [] && StartsEnd(h[..|h| - 1], aid)
    requires var g, it := h[..|h| - 1], h[|h| - 1];
             Starts(it, aid) ==> LastStart(g, aid).None? || LastStart(g, aid).value <= it.event.action.now
    ensures StartsEnd(h, aid)
  {
    var g, it := h[..|h| - 1], h[|h| - 1];
    assert forall i | 0 <= i < |g| :: h[i] == g[i];
    if Starts(it, aid) {
      assert h[|g|] == it;
    } else if LastStart(g, aid).Some? {
      var i :| 0 <= i < |g| && Starts(g[i], aid) && g[i].event.action.now == LastStart(g, aid).value;
      assert h[i] == g[i];
    }
  }

  lemma PacedMeans(h: seq<Item>, aid: int, now: real, interval: real)
    requires StartsEnd(h, aid)
    ensures Paced(h, aid, now, interval) <==> LastStart(h, aid).None? || LastStart(h, aid).value + interval <= now
  {
    hide Starts, LastStart;
  }

  // ---------------------------------------------------------------- main results

  /**
    A poll is admitted exactly when everyone who joined the account earlier has started or left, every earlier start is an
    interval ago, and fewer than cap requests are in flight.  Dropped table entries, requests of other accounts, and
    waiters that timed out or were cancelled play no part.
   */
  lemma PollMeans(h: seq<Item>, prune: bool, e: Event)
    requires After(h, prune).Some? && Enabled(After(h, prune).value, e) && e.action.Try?
    ensures var a := e.action;
            Step(After(h, prune).value, e, prune).1 == Admitted <==> Due(h, a.tok, a.aid, a.now, a.interval, a.cap)
  {
    var a := e.action;
    Reached(h, prune);
    AdmitsWhen(h, After(h, prune).value, e, prune);
    StartsOrdered(h, prune, a.aid);
    hide After, Step, Inv, Enabled, Pending, InFlight, StartsEnd, IsNext, LastStart;
    PacedMeans(h, a.aid, a.now, a.interval);
    HeadIsNext(h, prune, a.aid, a.tok);
  }

  /** A newcomer is turned away exactly when 256 requests that joined are still neither admitted nor gone. */
  lemma EnqueueMeans(h: seq<Item>, prune: bool, e: Event, waiters: set<Token>)
    requires After(h, prune).Some? && Enabled(After(h, prune).value, e) && e.action.Enqueue?
    requires forall t :: t in waiters <==> HasJoined(h, e.action.aid, t) && !Departed(h, e.action.aid, t)
    ensures Step(After(h, prune).value, e, prune).1 == if |waiters| >= MAX_WAITERS then Full else Joined
  {
    var s := After(h, prune).value;
    var a := e.action;
    Reached(h, prune);
    PendingMembers(h, prune, a.aid);
    hide After, HasJoined, Departed;
    PendingDistinct(h, s, a.aid);
    DistinctSize(Pending(h, a.aid), waiters);
    EnterWaiting(h, s, e, prune);
  }

  lemma EnterWaiting(h: seq<Item>, s: Sys, e: Event, prune: bool)
    requires Inv(h, s) && Enabled(s, e) && e.action.Enqueue?
    ensures Step(s, e, prune).1 == if |Pending(h, e.action.aid)| >= MAX_WAITERS then Full else Joined
  {
    var a := e.action;
    TickKeeps(h, s, e.at);
    InvSound(h, s);
    var t := s.(clock := e.at);
    PruneKeeps(h, t, a.started);
    EnterAfterPrune(t, a.tok, a.aid, a.started, prune);
    hide Prune, Idle;
    var u := if prune then t.(table := Prune(t, a.started)) else t;
    assert EntryOk(h, u, a.aid);
  }

  lemma {:induction false} DistinctSize(w: seq<Token>, all: set<Token>)
    requires Distinct(w) && forall t :: t in all <==> t in w
    ensures |w| == |all|
  {
    if w == [] {
      assert all == {};
    } else {
      assert forall t :: t in w <==> t == w[0] || t in w[1..];
      assert Distinct(w[1..]) && w[0] !in w[1..];
      DistinctSize(w[1..], all - {w[0]});
    }
  }

  /** The requests see the same things. */
  ghost predicate SameLocals(s: Sys, t: Sys) {
    && s.clock == t.clock && s.tokens.Keys == t.tokens.Keys
    && forall k | k in s.tokens :: s.tokens[k] == t.tokens[k].(ref := s.tokens[k].ref)
  }

  lemma SameStep(s: Sys, t: Sys, e: Event)
    requires Sound(s) && Sound(t) && SameLocals(s, t) && Enabled(s, e) && Enabled(t, e)
    requires Step(s, e, true).1 == Step(t, e, false).1
    ensures SameLocals(Step(s, e, true).0, Step(t, e, false).0)
  {
    LocalAfter(s, e, true);
    LocalAfter(t, e, false);
    hide Step, Enabled;
  }

  /** What a request knows after its step, the state object it holds aside. */
  function Knows(s: Sys, e: Event, outcome: Outcome): Local
    requires Enabled(s, e)
  {
    match e.action
    case Enqueue(_, aid, _) => Local(aid, 0, e.at, if outcome == Joined then Waiting else Done)
    case Try(tok, _, _, _, _) => s.tokens[tok].(ref := 0, phase := if outcome == Admitted then Running else Waiting)
    case Leave(tok, _) => s.tokens[tok].(ref := 0, phase := Done)
    case Release(tok, _) => s.tokens[tok].(ref := 0, phase := Done)
  }

  lemma EnterLocal(s: Sys, tok: Token, aid: int, started: real, prune: bool)
    requires Sound(s)
    ensures var r := Enter(s, tok, aid, started, prune);
            && r.0.clock == s.clock && r.0.tokens.Keys == s.tokens.Keys + {tok}
            && (forall k | k in s.tokens && k != tok :: r.0.tokens[k] == s.tokens[k])
            && r.0.tokens[tok].(ref := 0) == Local(aid, 0, s.clock, if r.1 == Joined then Waiting else Done)
  {
    hide Prune;
  }

  lemma LocalAfter(s: Sys, e: Event, prune: bool)
    requires Sound(s) && Enabled(s, e)
    ensures var r := Step(s, e, prune);
            && r.0.clock == e.at && r.0.tokens.Keys == s.tokens.Keys + {e.action.tok}
            && (forall k | k in s.tokens && k != e.action.tok :: r.0.tokens[k] == s.tokens[k])
            && r.0.tokens[e.action.tok].(ref := 0) == Knows(s, e, r.1)
  {
    hide Polled, Prune, Enter;
    match e.action
    case Enqueue(tok, aid, started) => EnterLocal(s.(clock := e.at), tok, aid, started, prune);
    case _ =>
  }

  lemma SameEnabled(s: Sys, t: Sys, e: Event)
    requires SameLocals(s, t)
    ensures Enabled(s, e) <==> Enabled(t, e)
  {
  }

  lemma SameOutcome(h: seq<Item>, e: Event)
    requires After(h, true).Some? && After(h, false).Some?
    requires Enabled(After(h, true).value, e) && Enabled(After(h, false).value, e)
    ensures Step(After(h, true).value, e, true).1 == Step(After(h, false).value, e, false).1
  {
    if e.action.Try? {
      PollMeans(h, true, e);
      PollMeans(h, false, e);
    } else if e.action.Enqueue? {
      Reached(h, true);
      Reached(h, false);
      EnterWaiting(h, After(h, true).value, e, true);
      EnterWaiting(h, After(h, false).value, e, false);
    }
    hide After, Due, Polled, Inv, Enter;
  }

  /** Dropping idle entries is unobservable: the limiter with and without it has the same histories. */
  lemma {:induction false} PruningUnobservable(h: seq<Item>)
    ensures After(h, true).Some? <==> After(h, false).Some?
    ensures After(h, true).Some? ==> SameLocals(After(h, true).value, After(h, false).value)
  {
    hide Enabled, Step;
    if h != [] {
      var g, e := h[..|h| - 1], h[|h| - 1].event;
      PruningUnobservable(g);
      if After(g, true).Some? {
        var s, t := After(g, true).value, After(g, false).value;
        SameEnabled(s, t, e);
        if Enabled(s, e) {
          SameOutcome(g, e);
          SameStep(s, t, e);
        }
      }
    }
  }

  /** Once every request that started has been released, nothing is in flight. */
  lemma Drained(h: seq<Item>, prune: bool, aid: int)
    requires After(h, prune).Some?
    requires forall t | t in After(h, prune).value.tokens :: !InPhase(After(h, prune).value, t, aid, Running)
    ensures InFlight(h, aid) == 0 && EntryOf(After(h, prune).value, aid).active == 0
  {
    Reached(h, prune);
    var s := After(h, prune).value;
    assert EntryOk(h, s, aid) && InFlight(h, aid) == |RunningOf(s, aid)|;
    assert RunningOf(s, aid) == {};
  }

  lemma {:induction false} PrefixReached(h: seq<Item>, prune: bool, n: nat)
    requires After(h, prune).Some? && n <= |h|
    ensures After(h[..n], prune).Some?
    decreases |h|
  {
    hide Enabled, Step;
    if n == |h| {
      assert h[..n] == h;
    } else {
      Unroll(h, prune);
      PrefixReached(h[..|h| - 1], prune, n);
      assert h[..|h| - 1][..n] == h[..n];
    }
  }

  /** In every history each start was due when it happened, and no poll that was due was refused. */
  lemma HistorySafe(h: seq<Item>, prune: bool, n: nat)
    requires After(h, prune).Some? && n < |h| && h[n].event.action.Try?
    ensures var a := h[n].event.action;
            h[n].outcome == Admitted <==> Due(h[..n], a.tok, a.aid, a.now, a.interval, a.cap)
    ensures h[n].outcome == Admitted || h[n].outcome == NotYet
  {
    PrefixReached(h, prune, n + 1);
    var g := h[..n + 1];
    Unroll(g, prune);
    assert g[..n] == h[..n];
    hide Due, Polled;
    PollMeans(g[..n], prune, g[n].event);
  }
}
