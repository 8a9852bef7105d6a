/** The limiter's table and its state objects, updated in place under the lock. */
module RateLimiterState {
  import opened Options
  import opened RateLimiter

  predicate Stale(s: Sys, a: int, started: real) {
    a in s.table && s.table[a] < |s.heap| && Idle(s.heap[s.table[a]], started)
  }

  class Slot {
    var active: int
    var lastStart: Option<real>
    var waiting: seq<Token>

    function View(): Entry
      reads this
    {
      Entry(active, lastStart, waiting)
    }

    constructor ()
      ensures View() == FRESH
    {
      active, lastStart, waiting := 0, None, [];
    }
  }

  class Limiter {
    var states: map<int, Slot>
    ghost var heap: seq<Slot>
    ghost var table: map<int, nat>

    /** A listing of the table, each key once. */
    ghost predicate Lists(keys: seq<int>)
      reads this
    {
      && (forall i | 0 <= i < |keys| :: keys[i] in states && keys[i] in table)
      && (forall a | a in table :: a in keys)
      && (forall i, j | 0 <= i < j < |keys| :: keys[i] != keys[j])
    }

    ghost predicate Valid()
      reads this
    {
      && (forall i, j | 0 <= i < j < |heap| :: heap[i] != heap[j])
      && (forall a :: a in states <==> a in table)
      && forall a | a in table :: table[a] < |heap| && heap[table[a]] == states[a]
    }

    ghost function Entries(): (r: seq<Entry>)
      reads this, heap
      ensures |r| == |heap| && forall i | 0 <= i < |r| :: r[i] == heap[i].View()
    {
      seq(|heap|, i requires 0 <= i < |heap| reads this, heap => heap[i].View())
    }

    /** The shared part of the limiter's state; requests and the clock are not the table's business. */
    ghost function View(): (s: Sys)
      reads this, heap
      requires Valid()
      ensures Sound(s)
    {
      Sys(Entries(), table, map[], 0.0)
    }

    constructor ()
      ensures Valid() && View() == EMPTY
    {
      states, heap, table := map[], [], map[];
    }

    lemma SlotEntry(states0: map<int, Slot>, a: int)
      requires a in states0 && a in table && table[a] < |heap| && heap[table[a]] == states0[a]
      ensures states0[a].View() == Entries()[table[a]]
    {
    }

    method DropIfIdle(key: int, started: real)
      requires key in states
      modifies this`states
      ensures states == if Idle(old(states[key].View()), started) then old(states) - {key} else old(states)
    {
      var state := states[key];
      if state.active == 0 && state.waiting == [] && (state.lastStart.None? || started - state.lastStart.value > 600.0) {
        states := states - {key};
      }
    }

    /** Drop entries that nobody uses and whose last start is older than any pacing gap; `keys` lists the table. */
    method DropIdle(keys: seq<int>, started: real)
      requires Valid() && Lists(keys)
      modifies this
      ensures Valid() && heap == old(heap) && Entries() == old(Entries())
      ensures table == Prune(old(View()), started)
    {
      hide Idle;
      ghost var s := View();
      for i := 0 to |keys|
        modifies this`states
        invariant forall a | a in states :: a in old(states) && states[a] == old(states)[a]
        invariant forall k | i <= k < |keys| :: keys[k] in states
        invariant forall k | 0 <= k < i :: keys[k] in states <==> !Stale(s, keys[k], started)
      {
        SlotEntry(old(states), keys[i]);
        DropIfIdle(keys[i], started);
      }
      table := Prune(s, started);
      forall a ensures a in states <==> a in table {
        assert a in s.table ==> a in keys;
      }
    }

    /** Look the account up, or make a state object for it. */
    method SetDefault(aid: int) returns (state: Slot)
      requires Valid()
      modifies this
      ensures Valid() && aid in states && state == states[aid]
      ensures heap == old(heap) || (fresh(state) && heap == old(heap) + [state])
      ensures View() == WithEntry(old(View()), aid)
    {
      if aid !in states {
        var made := new Slot();
        table := table[aid := |heap|];
        heap := heap + [made];
        states := states[aid := made];
      }
      state := states[aid];
    }

    method Join(aid: int, tok: Token, keys: seq<int>, started: real) returns (state: Slot, joined: bool)
      requires Valid() && Lists(keys)
      modifies this, heap
      ensures Valid() && aid in states && state == states[aid]
      ensures var r := Enter(old(View()), tok, aid, started, true);
              View().heap == r.0.heap && View().table == r.0.table && joined == (r.1 == Joined)
    {
      hide Idle, WithEntry, Prune;
      DropIdle(keys, started);
      state := SetDefault(aid);
      joined := |state.waiting| < MAX_WAITERS;
      if joined {
        state.waiting := state.waiting + [tok];
      }
    }

    /** One poll under the lock; the token's own state object is the only thing that may change. */
    method TryAdmit(state: Slot, tok: Token, now: real, interval: real, cap: int) returns (admitted: bool)
      requires tok in state.waiting
      modifies state
      ensures var p := Polled(old(state.View()), tok, now, interval, cap);
              admitted == p.Some? && state.View() == if admitted then p.value else old(state.View())
    {
      var clear := state.lastStart.None? || state.lastStart.value + interval - now <= 0.0;
      if state.waiting[0] == tok && clear && (cap == 0 || state.active < cap) {
        state.waiting := state.waiting[1..];
        state.active := state.active + 1;
        state.lastStart := Some(now);
        return true;
      }
      admitted := false;
    }

    /** Leaving the lock's scope: give the slot back, or stand down from the line. */
    method Finally(state: Slot, tok: Token, admitted: bool)
      modifies state
      ensures state.View() == if admitted then old(state.View()).(active := old(state.active) - 1)
                              else old(state.View()).(waiting := Without(old(state.waiting), tok))
    {
      if admitted {
        state.active := state.active - 1;
      } else {
        state.waiting := Without(state.waiting, tok);
      }
    }
  }
}
