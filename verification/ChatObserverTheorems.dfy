/** What the observer knows, stated on the chunks that it let through. */
module ChatObserverTheorems {
  import opened Options
  import opened ChatObserver

  // ---------------------------------------------------------------- runs

  /** The observer and the chunks that it let through. */
  datatype Watch = Watch(o: Obs, accepted: seq<Chunk>)

  function WatchOne(w: Watch, e: Wire): Watch {
    var r := Observe(w.o, e);
    Watch(r.0, w.accepted + if r.1.Some? then [r.1.value] else [])
  }

  function WatchAll(w: Watch, es: seq<Wire>): Watch
    decreases |es|
  {
    if es == [] then w else WatchAll(WatchOne(w, es[0]), es[1..])
  }

  /** The changes that a chunk stands for, whatever came before it. */
  function Meaning(c: Chunk, n: nat): seq<Atom> {
    if !c.choices.Good? then []
    else
      var v := CheckChoices(c.choices.value, n, {}, {});
      if v.Ok? then Atoms(v.value) else []
  }

  function Log(cs: seq<Chunk>, n: nat): seq<Atom> {
    if cs == [] then [] else Log(cs[..|cs| - 1], n) + Meaning(cs[|cs| - 1], n)
  }

  // ---------------------------------------------------------------- reading a log

  function Finishes(log: seq<Atom>, i: int): nat {
    if log == [] then 0
    else Finishes(log[..|log| - 1], i) + if log[|log| - 1].Finish? && log[|log| - 1].i == i then 1 else 0
  }

  function Texts(log: seq<Atom>): seq<string> {
    if log == [] then []
    else Texts(log[..|log| - 1]) + if log[|log| - 1].Text? then [log[|log| - 1].s] else []
  }

  predicate OfCall(a: Atom, key: (int, int)) {
    a.Tool? && a.i == key.0 && a.t == key.1
  }

  /** The argument fragments of a call, put together. */
  function Arguments(log: seq<Atom>, key: (int, int)): string {
    if log == [] then ""
    else
      var last := log[|log| - 1];
      Arguments(log[..|log| - 1], key) + if OfCall(last, key) && last.arguments.Some? then last.arguments.value else ""
  }

  ghost predicate Called(log: seq<Atom>, key: (int, int)) {
    exists k :: 0 <= k < |log| && OfCall(log[k], key)
  }

  ghost predicate CallHasId(log: seq<Atom>, key: (int, int), id: string) {
    exists k :: 0 <= k < |log| && OfCall(log[k], key) && log[k].id == Some(id)
  }

  ghost predicate CallHasName(log: seq<Atom>, key: (int, int), name: string) {
    exists k :: 0 <= k < |log| && OfCall(log[k], key) && log[k].name == Some(name)
  }

  ghost predicate HasText(log: seq<Atom>, i: int) {
    exists k :: 0 <= k < |log| && log[k].Text? && log[k].i == i
  }

  ghost predicate HasReasoning(log: seq<Atom>, i: int) {
    exists k :: 0 <= k < |log| && log[k].Reason? && log[k].i == i
  }

  ghost predicate HasTools(log: seq<Atom>, i: int) {
    exists k :: 0 <= k < |log| && log[k].Tool? && log[k].i == i
  }

  // ---------------------------------------------------------------- the invariant

  ghost predicate TracksFinish(p: Progress, log: seq<Atom>, i: int) {
    && (i in p.finish <==> Seen(i) in log)
    && (forall r :: i in p.finish && p.finish[i] == Some(r) <==> Finish(i, r) in log)
    && (i in p.closed <==> i in p.finish && p.finish[i].Some?)
    && Finishes(log, i) == if i in p.closed then 1 else 0
  }

  ghost predicate TracksOutput(p: Progress, log: seq<Atom>, i: int) {
    && (i in p.content <==> HasText(log, i))
    && (i in p.reasoning <==> HasReasoning(log, i))
    && (i in p.tools <==> HasTools(log, i))
  }

  ghost predicate TracksCall(p: Progress, log: seq<Atom>, key: (int, int)) {
    && (key in p.calls <==> Called(log, key))
    && CallAt(p, key).arguments == Arguments(log, key)
    && (forall x :: CallAt(p, key).id == Some(x) <==> CallHasId(log, key, x))
    && (forall x :: CallAt(p, key).name == Some(x) <==> CallHasName(log, key, x))
  }

  ghost predicate Tracks(p: Progress, log: seq<Atom>) {
    && p.text == Texts(log)
    && (forall i :: TracksFinish(p, log, i) && TracksOutput(p, log, i))
    && forall key: (int, int) :: TracksCall(p, log, key)
  }

  /** A finish comes for a choice that is seen and open. */
  predicate Timely(p: Progress, a: Atom) {
    a.Finish? ==> a.i in p.finish && a.i !in p.closed
  }

  lemma Prefix(log: seq<Atom>, a: Atom)
    ensures (log + [a])[..|log|] == log && (log + [a])[|log|] == a
    ensures forall b :: b in log + [a] <==> b in log || b == a
  {
  }

  lemma ReadingsGrow(log: seq<Atom>, a: Atom, i: int)
    ensures HasText(log + [a], i) <==> HasText(log, i) || (a.Text? && a.i == i)
    ensures HasReasoning(log + [a], i) <==> HasReasoning(log, i) || (a.Reason? && a.i == i)
    ensures HasTools(log + [a], i) <==> HasTools(log, i) || (a.Tool? && a.i == i)
  {
    var g := log + [a];
    assert g[|log|] == a && forall k | 0 <= k < |log| :: g[k] == log[k];
    if HasText(log, i) {
      var k :| 0 <= k < |log| && log[k].Text? && log[k].i == i;
      assert g[k] == log[k];
    }
    if HasReasoning(log, i) {
      var k :| 0 <= k < |log| && log[k].Reason? && log[k].i == i;
      assert g[k] == log[k];
    }
    if HasTools(log, i) {
      var k :| 0 <= k < |log| && log[k].Tool? && log[k].i == i;
      assert g[k] == log[k];
    }
  }

  lemma CalledGrows(log: seq<Atom>, a: Atom, key: (int, int))
    ensures Called(log + [a], key) <==> Called(log, key) || OfCall(a, key)
  {
    hide OfCall;
    var g := log + [a];
    assert g[|log|] == a && forall k | 0 <= k < |log| :: g[k] == log[k];
    if Called(log, key) {
      var k :| 0 <= k < |log| && OfCall(log[k], key);
      assert OfCall(g[k], key);
    }
  }

  lemma CallIdGrows(log: seq<Atom>, a: Atom, key: (int, int), x: string)
    ensures CallHasId(log + [a], key, x) <==> CallHasId(log, key, x) || (OfCall(a, key) && a.id == Some(x))
  {
    var g := log + [a];
    assert g[|log|] == a && forall k | 0 <= k < |log| :: g[k] == log[k];
    if CallHasId(log, key, x) {
      var k :| 0 <= k < |log| && OfCall(log[k], key) && log[k].id == Some(x);
      assert OfCall(g[k], key);
    }
  }

  lemma CallNameGrows(log: seq<Atom>, a: Atom, key: (int, int), x: string)
    ensures CallHasName(log + [a], key, x) <==> CallHasName(log, key, x) || (OfCall(a, key) && a.name == Some(x))
  {
    var g := log + [a];
    assert g[|log|] == a && forall k | 0 <= k < |log| :: g[k] == log[k];
    if CallHasName(log, key, x) {
      var k :| 0 <= k < |log| && OfCall(log[k], key) && log[k].name == Some(x);
      assert OfCall(g[k], key);
    }
  }

  lemma FinishTracks(p: Progress, log: seq<Atom>, a: Atom, i: int)
    requires TracksFinish(p, log, i) && Timely(p, a)
    ensures TracksFinish(Apply(p, a), log + [a], i)
  {
    Prefix(log, a);
  }

  lemma OutputTracks(p: Progress, log: seq<Atom>, a: Atom, i: int)
    requires TracksOutput(p, log, i)
    ensures TracksOutput(Apply(p, a), log + [a], i)
  {
    hide HasText, HasReasoning, HasTools;
    ReadingsGrow(log, a, i);
  }

  lemma TextTracks(p: Progress, log: seq<Atom>, a: Atom)
    requires p.text == Texts(log)
    ensures Apply(p, a).text == Texts(log + [a])
  {
    Prefix(log, a);
  }

  /** What a change does to the record of one call. */
  lemma CallAfter(p: Progress, a: Atom, key: (int, int))
    requires Conflict(p, a).None?
    ensures !OfCall(a, key) ==> CallAt(Apply(p, a), key) == CallAt(p, key) && (key in Apply(p, a).calls <==> key in p.calls)
    ensures OfCall(a, key) ==>
              var was := CallAt(p, key); var c := CallAt(Apply(p, a), key);
              && key in Apply(p, a).calls && !Conflicts(was.id, a.id) && !Conflicts(was.name, a.name)
              && c == Call(Or(a.id, was.id), Or(a.name, was.name), was.arguments + if a.arguments.Some? then a.arguments.value else "")
  {
  }

  lemma CallTracks(p: Progress, log: seq<Atom>, a: Atom, key: (int, int))
    requires TracksCall(p, log, key) && Conflict(p, a).None?
    ensures TracksCall(Apply(p, a), log + [a], key)
  {
    hide Called, CallHasId, CallHasName, Apply, OfCall, CallAt;
    CallAfter(p, a, key);
    CalledGrows(log, a, key);
    Prefix(log, a);
    forall x
      ensures CallAt(Apply(p, a), key).id == Some(x) <==> CallHasId(log + [a], key, x)
      ensures CallAt(Apply(p, a), key).name == Some(x) <==> CallHasName(log + [a], key, x)
    {
      CallIdGrows(log, a, key, x);
      CallNameGrows(log, a, key, x);
    }
  }

  lemma ApplyTracks(p: Progress, log: seq<Atom>, a: Atom)
    requires Tracks(p, log) && Timely(p, a) && Conflict(p, a).None?
    ensures Tracks(Apply(p, a), log + [a])
  {
    hide TracksFinish, TracksOutput, TracksCall, Apply, Timely, Texts;
    TextTracks(p, log, a);
    forall i ensures TracksFinish(Apply(p, a), log + [a], i) && TracksOutput(Apply(p, a), log + [a], i) {
      FinishTracks(p, log, a, i);
      OutputTracks(p, log, a, i);
    }
    forall key: (int, int) ensures TracksCall(Apply(p, a), log + [a], key) {
      CallTracks(p, log, a, key);
    }
  }

  // ---------------------------------------------------------------- one event

  /** Every finish on the way comes for a choice that is seen and open. */
  predicate AllTimely(p: Progress, atoms: seq<Atom>)
    decreases |atoms|
  {
    atoms != [] ==> Timely(p, atoms[0]) && (Conflict(p, atoms[0]).None? ==> AllTimely(Apply(p, atoms[0]), atoms[1..]))
  }

  lemma {:induction false} ApplyAllTracks(p: Progress, log: seq<Atom>, atoms: seq<Atom>)
    requires Tracks(p, log) && AllTimely(p, atoms) && ApplyAll(p, atoms).1.None?
    ensures Tracks(ApplyAll(p, atoms).0, log + atoms)
    decreases |atoms|
  {
    hide Tracks, Apply, Conflict, Timely;
    if atoms == [] {
      assert log + atoms == log;
    } else {
      ApplyTracks(p, log, atoms[0]);
      ApplyAllTracks(Apply(p, atoms[0]), log + [atoms[0]], atoms[1..]);
      assert log + [atoms[0]] + atoms[1..] == log + atoms;
    }
  }

  lemma {:induction false} ApplyAppend(p: Progress, x: seq<Atom>, y: seq<Atom>)
    ensures ApplyAll(p, x + y) == if ApplyAll(p, x).1.Some? then ApplyAll(p, x) else ApplyAll(ApplyAll(p, x).0, y)
    ensures AllTimely(p, x) && (ApplyAll(p, x).1.None? ==> AllTimely(ApplyAll(p, x).0, y)) ==> AllTimely(p, x + y)
    decreases |x|
  {
    hide Apply, Conflict, Timely;
    if x == [] {
      assert x + y == y;
    } else {
      assert (x + y)[0] == x[0] && (x + y)[1..] == x[1..] + y;
      ApplyAppend(Apply(p, x[0]), x[1..], y);
    }
  }

  lemma {:induction false} NoFinishTimely(p: Progress, atoms: seq<Atom>)
    requires forall k | 0 <= k < |atoms| :: !atoms[k].Finish?
    ensures AllTimely(p, atoms)
    decreases |atoms|
  {
    hide Apply, Conflict;
    if atoms != [] {
      NoFinishTimely(Apply(p, atoms[0]), atoms[1..]);
    }
  }

  lemma {:induction false} ToolAtomsShape(i: int, ts: seq<GoodTool>)
    ensures forall k | 0 <= k < |ToolAtoms(i, ts)| :: ToolAtoms(i, ts)[k].Tool? && ToolAtoms(i, ts)[k].i == i
  {
    if ts != [] {
      ToolAtomsShape(i, ts[1..]);
    }
  }

  lemma HeadTimely(p: Progress, i: int, finish: seq<Atom>)
    requires i !in p.closed && (finish == [] || (|finish| == 1 && finish[0].Finish? && finish[0].i == i))
    ensures AllTimely(p, [Seen(i)] + finish)
  {
    assert ([Seen(i)] + finish)[1..] == finish;
    assert finish != [] ==> finish[1..] == [];
  }

  lemma ChoiceTimely(p: Progress, c: GoodChoice)
    requires c.index !in p.closed
    ensures AllTimely(p, ChoiceAtoms(c))
  {
    hide AllTimely, ApplyAll, ToolAtoms;
    var finish := if c.reason.Some? then [Finish(c.index, c.reason.value)] else [];
    var rest := (if c.content != "" then [Text(c.index, c.content)] else [])
                + (if c.reasoning != "" then [Reason(c.index)] else []) + ToolAtoms(c.index, c.tools);
    ToolAtomsShape(c.index, c.tools);
    var head := [Seen(c.index)] + finish;
    HeadTimely(p, c.index, finish);
    NoFinishTimely(ApplyAll(p, head).0, rest);
    ApplyAppend(p, head, rest);
    assert ChoiceAtoms(c) == head + rest;
  }

  /** Only choices among those, all of them seen. */
  ghost predicate Within(p: Progress, n: nat) {
    (forall i | i in p.finish :: 0 <= i < n) && (forall i | i in p.tools :: i in p.finish)
  }

  lemma {:induction false} SameChoice(p: Progress, atoms: seq<Atom>, i: int, n: nat)
    requires forall k | 0 <= k < |atoms| :: atoms[k].i == i
    requires 0 <= i < n && Within(p, n) && (i in p.finish || (atoms != [] && atoms[0].Seen?))
    ensures var q := ApplyAll(p, atoms).0; Within(q, n) && q.closed <= p.closed + {i} && (atoms != [] ==> i in q.finish)
    decreases |atoms|
  {
    if atoms != [] {
      var q := Apply(p, atoms[0]);
      assert Within(q, n) && q.closed <= p.closed + {i} && i in q.finish;
      hide Apply;
      SameChoice(q, atoms[1..], i, n);
    }
  }

  lemma ChoiceShape(c: GoodChoice)
    ensures forall k | 0 <= k < |ChoiceAtoms(c)| :: ChoiceAtoms(c)[k].i == c.index
    ensures ChoiceAtoms(c) != [] && ChoiceAtoms(c)[0] == Seen(c.index)
  {
    ToolAtomsShape(c.index, c.tools);
  }

  /** The choices of one event: requested, open, and each named once. */
  ghost predicate Fresh(cs: seq<GoodChoice>, n: nat, closed: set<int>, seen: set<int>) {
    && (forall k | 0 <= k < |cs| :: 0 <= cs[k].index < n && cs[k].index !in closed && cs[k].index !in seen)
    && (forall k, l | 0 <= k < l < |cs| :: cs[k].index != cs[l].index)
  }

  lemma {:induction false} AtomsFit(p: Progress, cs: seq<GoodChoice>, n: nat, closed: set<int>)
    requires Fresh(cs, n, closed, {}) && Within(p, n) && forall k | 0 <= k < |cs| :: cs[k].index !in p.closed
    ensures AllTimely(p, Atoms(cs)) && Within(ApplyAll(p, Atoms(cs)).0, n)
    decreases |cs|
  {
    hide ChoiceAtoms;
    if cs != [] {
      var c := cs[0];
      ChoiceShape(c);
      ChoiceTimely(p, c);
      SameChoice(p, ChoiceAtoms(c), c.index, n);
      ApplyAppend(p, ChoiceAtoms(c), Atoms(cs[1..]));
      AtomsFit(ApplyAll(p, ChoiceAtoms(c)).0, cs[1..], n, closed);
    }
  }

  lemma CheckedIndex(c: Choice, n: nat, closed: set<int>, seen: set<int>)
    ensures var v := CheckChoice(c, n, closed, seen);
            v.Ok? ==> 0 <= v.value.index < n && v.value.index !in closed && v.value.index !in seen
    ensures CheckChoice(c, n, closed, seen).Ok? ==> CheckChoice(c, n, {}, {}) == CheckChoice(c, n, closed, seen)
    ensures forall seen0 | seen0 <= seen :: CheckChoice(c, n, closed, seen).Ok? ==> CheckChoice(c, n, {}, seen0) == CheckChoice(c, n, closed, seen)
  {
    hide CheckTools;
  }

  lemma {:induction false} CheckedFresh(cs: seq<Choice>, n: nat, closed: set<int>, seen: set<int>, seen0: set<int>)
    requires CheckChoices(cs, n, closed, seen).Ok? && seen0 <= seen
    ensures Fresh(CheckChoices(cs, n, closed, seen).value, n, closed, seen)
    ensures CheckChoices(cs, n, {}, seen0) == CheckChoices(cs, n, closed, seen)
    decreases |cs|
  {
    hide CheckChoice;
    if cs != [] {
      CheckedIndex(cs[0], n, closed, seen);
      var first := CheckChoice(cs[0], n, closed, seen).value;
      CheckedFresh(cs[1..], n, closed, seen + {first.index}, seen0 + {first.index});
      var rest := CheckChoices(cs[1..], n, closed, seen + {first.index}).value;
      assert CheckChoices(cs, n, closed, seen).value == [first] + rest;
      assert forall k | 0 <= k < |rest| :: rest[k].index !in seen + {first.index};
    }
  }

  // ---------------------------------------------------------------- cleaning keeps the meaning

  lemma CleanToolChecks(t: ToolDelta, position: nat)
    ensures CheckTool(CleanTool(t), position) == CheckTool(t, position)
  {
  }

  lemma {:induction false} CleanToolsCheck(ts: seq<ToolDelta>, cleaned: seq<ToolDelta>, position: nat)
    requires |ts| == |cleaned| && forall k | 0 <= k < |ts| :: cleaned[k] == CleanTool(ts[k])
    ensures CheckTools(cleaned, position) == CheckTools(ts, position)
    decreases |ts|
  {
    hide CheckTool, CleanTool;
    if ts != [] {
      CleanToolChecks(ts[0], position);
      CleanToolsCheck(ts[1..], cleaned[1..], position + 1);
    }
  }

  lemma CleanDeltaChecks(index: int, reason: Option<string>, d: Delta)
    ensures CheckDelta(index, reason, CleanDelta(d)) == CheckDelta(index, reason, d)
  {
    hide CheckTools, CleanTool;
    if d.tools.Good? {
      CleanToolsCheck(d.tools.value, CleanDelta(d).tools.value, 0);
    }
  }

  lemma CleanChoiceChecks(c: Choice, n: nat, closed: set<int>, seen: set<int>)
    ensures CheckChoice(CleanChoice(c), n, closed, seen) == CheckChoice(c, n, closed, seen)
  {
    hide CheckDelta, CleanDelta;
    if !c.ChoiceNotDict? && c.delta.Good? {
      var index := if c.index.Absent? then Good(0) else c.index;
      if index.Good? {
        CleanDeltaChecks(index.value, NonEmpty(c.finish), c.delta.value);
      }
    }
  }

  lemma {:induction false} CleanChoicesCheck(cs: seq<Choice>, cleaned: seq<Choice>, n: nat, closed: set<int>, seen: set<int>)
    requires |cs| == |cleaned| && forall k | 0 <= k < |cs| :: cleaned[k] == CleanChoice(cs[k])
    ensures CheckChoices(cleaned, n, closed, seen) == CheckChoices(cs, n, closed, seen)
    decreases |cs|
  {
    hide CheckChoice, CleanChoice;
    if cs != [] {
      CleanChoiceChecks(cs[0], n, closed, seen);
      if CheckChoice(cs[0], n, closed, seen).Ok? {
        CleanChoicesCheck(cs[1..], cleaned[1..], n, closed, seen + {CheckChoice(cs[0], n, closed, seen).value.index});
      }
    }
  }

  /** What is forwarded means what was received. */
  lemma CleanMeaning(c: Chunk, n: nat)
    ensures Meaning(Clean(c), n) == Meaning(c, n)
  {
    hide CheckChoices, CleanChoice;
    if c.choices.Good? {
      CleanChoicesCheck(c.choices.value, Clean(c).choices.value, n, {}, {});
    }
  }

  // ---------------------------------------------------------------- every run

  /** Until something goes wrong, the progress is what the forwarded chunks say. */
  ghost predicate Faithful(w: Watch) {
    Within(w.o.p, w.o.n) && (w.o.parserError.None? ==> Tracks(w.o.p, Log(w.accepted, w.o.n)))
  }

  lemma LogGrows(cs: seq<Chunk>, c: Chunk, n: nat)
    ensures Log(cs + [c], n) == Log(cs, n) + Meaning(c, n)
  {
    assert (cs + [c])[..|cs|] == cs;
  }

  lemma MergedKeeps(o: Obs, c: Chunk)
    ensures Merged(o, c).p == o.p && Merged(o, c).n == o.n
    ensures c.choices.Good? && !c.usage.Bad? ==> Merged(o, c).parserError == o.parserError
    ensures !c.choices.Good? || c.usage.Bad? ==> Merged(o, c).parserError.Some?
    ensures o.parserError.Some? ==> Merged(o, c).parserError.Some?
  {
  }

  lemma JudgeFaithful(w: Watch, c: Chunk)
    requires Faithful(w) && c.choices.Good?
    ensures var r := Judge(w.o, c); Faithful(Watch(r.0, w.accepted + if r.1.Some? then [r.1.value] else []))
  {
    hide Tracks, Within, CheckChoices, Atoms, ApplyAll, Fresh, AllTimely;
    var valid := CheckChoices(c.choices.value, w.o.n, w.o.p.closed, {});
    if valid.Ok? {
      CheckedFresh(c.choices.value, w.o.n, w.o.p.closed, {}, {});
      FreshOpen(valid.value, w.o.n, w.o.p.closed);
      AtomsFit(w.o.p, valid.value, w.o.n, w.o.p.closed);
      CleanMeaning(c, w.o.n);
      LogGrows(w.accepted, Clean(c), w.o.n);
      if w.o.parserError.None? && ApplyAll(w.o.p, Atoms(valid.value)).1.None? {
        ApplyAllTracks(w.o.p, Log(w.accepted, w.o.n), Atoms(valid.value));
      }
    }
  }

  lemma FreshOpen(cs: seq<GoodChoice>, n: nat, closed: set<int>)
    requires Fresh(cs, n, closed, {})
    ensures forall k | 0 <= k < |cs| :: cs[k].index !in closed
  {
  }

  lemma WatchOneFaithful(w: Watch, e: Wire)
    requires Faithful(w)
    ensures Faithful(WatchOne(w, e)) && WatchOne(w, e).o.n == w.o.n
    ensures w.o.parserError.Some? ==> WatchOne(w, e).o.parserError.Some?
  {
    hide Tracks, Within, Judge, Merged, Log;
    assert w.accepted + [] == w.accepted;
    if e.Event? && !w.o.seenDone && !e.chunk.error {
      var c := e.chunk;
      MergedKeeps(w.o, c);
      if !c.usage.Bad? && c.choices.Good? {
        JudgeFaithful(Watch(Merged(w.o, c), w.accepted), c);
        JudgeKeepsErrors(Merged(w.o, c), c);
      }
    }
  }

  lemma JudgeKeepsErrors(o: Obs, c: Chunk)
    requires c.choices.Good?
    ensures Judge(o, c).0.n == o.n && (o.parserError.Some? ==> Judge(o, c).0.parserError.Some?)
  {
    hide CheckChoices, ApplyAll, Atoms;
  }

  lemma {:induction false} WatchFaithful(w: Watch, es: seq<Wire>)
    requires Faithful(w)
    ensures Faithful(WatchAll(w, es)) && WatchAll(w, es).o.n == w.o.n
    decreases |es|
  {
    hide Faithful, WatchOne;
    if es != [] {
      WatchOneFaithful(w, es[0]);
      WatchFaithful(WatchOne(w, es[0]), es[1..]);
    }
  }

  lemma FaithfulAtStart(n: nat)
    ensures Faithful(Watch(NewObs(n), []))
  {
  }

  /** After any events: what the observer recorded is what the chunks that it let through say. */
  lemma ObserverTracks(n: nat, es: seq<Wire>)
    ensures var w := WatchAll(Watch(NewObs(n), []), es);
            w.o.n == n && (w.o.parserError.None? ==> Tracks(w.o.p, Log(w.accepted, n)))
  {
    FaithfulAtStart(n);
    WatchFaithful(Watch(NewObs(n), []), es);
  }

  // ---------------------------------------------------------------- rejected events and finished choices

  predicate NamesChoice(cs: seq<Choice>, i: int) {
    exists k :: 0 <= k < |cs| && cs[k].Choice? && (cs[k].index == Good(i) || (cs[k].index.Absent? && i == 0))
  }

  lemma {:induction false} ClosedRejected(cs: seq<Choice>, n: nat, closed: set<int>, seen: set<int>, i: int)
    requires NamesChoice(cs, i) && i in closed
    ensures CheckChoices(cs, n, closed, seen).Err?
    decreases |cs|
  {
    var k :| 0 <= k < |cs| && cs[k].Choice? && (cs[k].index == Good(i) || (cs[k].index.Absent? && i == 0));
    if k > 0 && CheckChoice(cs[0], n, closed, seen).Ok? {
      assert cs[1..][k - 1] == cs[k];
      ClosedRejected(cs[1..], n, closed, seen + {CheckChoice(cs[0], n, closed, seen).value.index}, i);
    }
  }

  /**
    An event that is not let through leaves choices, content and calls as they were, unless all its choices were valid and
    a call of one of them changed its id or name.  An event that names a finished choice is never let through.
   */
  lemma RejectedUnchanged(o: Obs, e: Wire)
    requires Observe(o, e).1.None?
    ensures Observe(o, e).0.p == o.p
            || (e.Event? && e.chunk.choices.Good? && CheckChoices(e.chunk.choices.value, o.n, o.p.closed, {}).Ok?
                && Observe(o, e).0.parserError in {Some(CallIdChanged), Some(NameChanged)})
  {
    hide CheckChoices, Atoms, Merged, ApplyAll;
    if e.Event? {
      MergedKeeps(o, e.chunk);
      if e.chunk.choices.Good? {
        var v := CheckChoices(e.chunk.choices.value, o.n, o.p.closed, {});
        if v.Ok? {
          ConflictKinds(o.p, Atoms(v.value));
        }
      }
    }
  }

  lemma {:induction false} ConflictKinds(p: Progress, atoms: seq<Atom>)
    ensures ApplyAll(p, atoms).1 in {None, Some(CallIdChanged), Some(NameChanged)}
    decreases |atoms|
  {
    hide Apply;
    if atoms != [] {
      ConflictKinds(Apply(p, atoms[0]), atoms[1..]);
    }
  }

  lemma FinishedAcceptsNothing(o: Obs, e: Wire, i: int)
    requires e.Event? && e.chunk.choices.Good? && NamesChoice(e.chunk.choices.value, i) && i in o.p.closed
    ensures Observe(o, e).1.None? && Observe(o, e).0.p == o.p
  {
    MergedKeeps(o, e.chunk);
    ClosedRejected(e.chunk.choices.value, o.n, o.p.closed, {}, i);
    hide CheckChoices, Merged, NamesChoice;
  }

  // ---------------------------------------------------------------- calls only grow

  /** The call keeps its id and name, and its arguments only get longer. */
  predicate CallGrows(p: Progress, q: Progress, key: (int, int)) {
    key in p.calls ==>
      && key in q.calls && p.calls[key].arguments <= q.calls[key].arguments
      && (p.calls[key].id.Some? ==> q.calls[key].id == p.calls[key].id)
      && (p.calls[key].name.Some? ==> q.calls[key].name == p.calls[key].name)
  }

  lemma {:induction false} ApplyAllGrows(p: Progress, atoms: seq<Atom>, key: (int, int))
    ensures CallGrows(p, ApplyAll(p, atoms).0, key)
    decreases |atoms|
  {
    if atoms != [] {
      assert CallGrows(p, Apply(p, atoms[0]), key);
      hide Apply, Conflict;
      ApplyAllGrows(Apply(p, atoms[0]), atoms[1..], key);
    }
  }

  lemma ObserveGrows(o: Obs, e: Wire, key: (int, int))
    ensures CallGrows(o.p, Observe(o, e).0.p, key)
  {
    hide CheckChoices, Atoms, Merged, ApplyAll;
    if e.Event? {
      MergedKeeps(o, e.chunk);
      if e.chunk.choices.Good? {
        var v := CheckChoices(e.chunk.choices.value, o.n, o.p.closed, {});
        if v.Ok? {
          ApplyAllGrows(o.p, Atoms(v.value), key);
        }
      }
    }
  }

  /** Over any further events, valid or not. */
  lemma {:induction false} CallsOnlyGrow(w: Watch, es: seq<Wire>, key: (int, int))
    ensures CallGrows(w.o.p, WatchAll(w, es).o.p, key)
    decreases |es|
  {
    hide Observe;
    if es != [] {
      ObserveGrows(w.o, es[0], key);
      CallsOnlyGrow(WatchOne(w, es[0]), es[1..], key);
    }
  }

  // ---------------------------------------------------------------- the end of a stream

  ghost predicate CutInLog(log: seq<Atom>, i: int) {
    Finish(i, "length") in log || Finish(i, "content_filter") in log
  }

  ghost predicate CallDone(log: seq<Atom>, key: (int, int), object_: string -> bool) {
    (exists id :: CallHasId(log, key, id)) && (exists name :: CallHasName(log, key, name)) && object_(Arguments(log, key))
  }

  /** A requested choice that may end the stream. */
  ghost predicate ChoiceDone(log: seq<Atom>, i: int, object_: string -> bool) {
    && Seen(i) in log
    && (Finish(i, "tool_calls") in log ==> HasTools(log, i))
    && (HasTools(log, i) ==> forall r | Finish(i, r) in log :: r in {"tool_calls", "length", "content_filter"})
    && ((forall r :: Finish(i, r) !in log) ==> HasTools(log, i))
    && (!CutInLog(log, i) ==> forall t: int | Called(log, (i, t)) :: CallDone(log, (i, t), object_))
    && (CutInLog(log, i) || HasText(log, i) || HasReasoning(log, i) || HasTools(log, i))
  }

  lemma ToolsAreCalls(p: Progress, log: seq<Atom>, i: int)
    requires Tracks(p, log)
    ensures i in p.tools <==> exists k | k in p.calls :: k.0 == i
  {
    assert TracksOutput(p, log, i);
    if HasTools(log, i) {
      var k :| 0 <= k < |log| && log[k].Tool? && log[k].i == i;
      var key := (i, log[k].t as int);
      assert OfCall(log[k], key) && TracksCall(p, log, key);
    }
    forall key | key in p.calls ensures HasTools(log, key.0) {
      assert TracksCall(p, log, key);
      var k :| 0 <= k < |log| && OfCall(log[k], key);
    }
  }

  lemma CallMeans(p: Progress, log: seq<Atom>, key: (int, int), object_: string -> bool)
    requires Tracks(p, log) && key in p.calls
    ensures CallComplete(p.calls[key], object_) <==> CallDone(log, key, object_)
  {
    assert TracksCall(p, log, key);
    hide CallHasId, CallHasName, Called;
    var c := CallAt(p, key);
    assert c.id.Some? ==> CallHasId(log, key, c.id.value);
    assert c.name.Some? ==> CallHasName(log, key, c.name.value);
  }

  lemma ReasonMeans(p: Progress, log: seq<Atom>, i: int)
    requires Tracks(p, log) && i in p.finish
    ensures ReasonFits(p, i) <==>
            && (Finish(i, "tool_calls") in log ==> HasTools(log, i))
            && (HasTools(log, i) ==> forall r | Finish(i, r) in log :: r in {"tool_calls", "length", "content_filter"})
            && ((forall r :: Finish(i, r) !in log) ==> HasTools(log, i))
    ensures CutShort(p.finish[i]) <==> CutInLog(log, i)
    ensures Productive(p, i) <==> CutInLog(log, i) || HasText(log, i) || HasReasoning(log, i) || HasTools(log, i)
  {
    assert TracksFinish(p, log, i) && TracksOutput(p, log, i);
    hide HasTools, HasText, HasReasoning, Finishes, TracksCall;
    var r := p.finish[i];
    assert r.Some? ==> Finish(i, r.value) in log;
  }

  lemma CallsMean(p: Progress, log: seq<Atom>, i: int, object_: string -> bool)
    requires Tracks(p, log) && i in p.finish && i in p.tools
    ensures CallsFit(p, i, object_) <==> (!CutInLog(log, i) ==> forall t: int | Called(log, (i, t)) :: CallDone(log, (i, t), object_))
  {
    ToolsAreCalls(p, log, i);
    ReasonMeans(p, log, i);
    hide HasTools, HasText, HasReasoning, CallDone, CallComplete, CutShort, CutInLog, Called, Tracks;
    forall key | key in p.calls ensures CallComplete(p.calls[key], object_) <==> CallDone(log, key, object_) {
      CallMeans(p, log, key, object_);
    }
    forall key: (int, int) ensures key in p.calls <==> Called(log, key) {
      CalledMeans(p, log, key);
    }
    if CallsFit(p, i, object_) && !CutInLog(log, i) {
      forall t: int | Called(log, (i, t)) ensures CallDone(log, (i, t), object_) {
        assert (i, t) in p.calls && (i, t).0 == i;
      }
    }
    if forall t: int | Called(log, (i, t)) :: CallDone(log, (i, t), object_) {
      forall key | key in p.calls && key.0 == i ensures CallComplete(p.calls[key], object_) {
        assert key == (i, key.1);
      }
    }
  }

  lemma CalledMeans(p: Progress, log: seq<Atom>, key: (int, int))
    requires Tracks(p, log)
    ensures key in p.calls <==> Called(log, key)
  {
    assert TracksCall(p, log, key);
  }

  lemma NoToolsNoCalls(log: seq<Atom>, i: int)
    requires !HasTools(log, i)
    ensures forall t: int :: !Called(log, (i, t))
  {
  }

  lemma ChoiceMeans(p: Progress, log: seq<Atom>, i: int, object_: string -> bool)
    requires Tracks(p, log) && i in p.finish
    ensures ChoiceDone(log, i, object_) <==> ReasonFits(p, i) && Productive(p, i) && (i in p.tools ==> CallsFit(p, i, object_))
  {
    assert TracksFinish(p, log, i) && TracksOutput(p, log, i);
    ReasonMeans(p, log, i);
    if i in p.tools {
      CallsMean(p, log, i, object_);
    } else {
      NoToolsNoCalls(log, i);
    }
    hide HasTools, HasText, HasReasoning, CallDone, CutInLog, Called, Tracks, ReasonFits, Productive, CallsFit, TracksFinish, TracksOutput;
  }

  /**
    A stream may end successfully exactly when nothing went wrong and every requested choice is done: seen, productive or
    cut short, and its calls identified with an object for arguments unless it was cut short.
   */
  lemma EofMeans(n: nat, es: seq<Wire>, object_: string -> bool)
    ensures var w := WatchAll(Watch(NewObs(n), []), es); var o := w.o; var log := Log(w.accepted, n);
            Eof(o, object_).None? <==>
            && o.parserError.None? && !o.malformed && o.errorEvent.None? && o.sawChunk
            && forall i | 0 <= i < n :: ChoiceDone(log, i, object_)
    ensures var w := WatchAll(Watch(NewObs(n), []), es);
            Eof(w.o, object_).None? ==> forall i :: Seen(i) in Log(w.accepted, n) <==> 0 <= i < n
  {
    FaithfulAtStart(n);
    WatchFaithful(Watch(NewObs(n), []), es);
    var w := WatchAll(Watch(NewObs(n), []), es);
    EofOf(w, object_);
  }

  lemma EofOf(w: Watch, object_: string -> bool)
    requires Faithful(w)
    ensures var log := Log(w.accepted, w.o.n);
            Eof(w.o, object_).None? <==>
            && w.o.parserError.None? && !w.o.malformed && w.o.errorEvent.None? && w.o.sawChunk
            && forall i | 0 <= i < w.o.n :: ChoiceDone(log, i, object_)
    ensures Eof(w.o, object_).None? ==> forall i :: Seen(i) in Log(w.accepted, w.o.n) <==> 0 <= i < w.o.n
  {
    hide Log, ReasonFits, Productive, CallsFit, TracksCall, TracksOutput, ChoiceDone;
    if w.o.parserError.None? {
      var p, log := w.o.p, Log(w.accepted, w.o.n);
      forall i ensures i in p.finish <==> Seen(i) in log {
        assert TracksFinish(p, log, i);
      }
      forall i | i in p.finish
        ensures ChoiceDone(log, i, object_) <==> ReasonFits(p, i) && Productive(p, i) && (i in p.tools ==> CallsFit(p, i, object_))
      {
        ChoiceMeans(p, log, i, object_);
      }
      forall i | ChoiceDone(log, i, object_) ensures Seen(i) in log {
        DoneSeen(log, i, object_);
      }
      if forall i | 0 <= i < w.o.n :: ChoiceDone(log, i, object_) {
        assert forall i | 0 <= i < w.o.n :: i in p.finish;
        assert ChoicesComplete(p, object_);
      }
    }
  }

  lemma DoneSeen(log: seq<Atom>, i: int, object_: string -> bool)
    requires ChoiceDone(log, i, object_)
    ensures Seen(i) in log
  {
  }
}
