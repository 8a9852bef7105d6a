/** The queue and the picker agree. */
module AccountQueueTheorems {
  import opened Options
  import opened AccountQueue

  // ---------------------------------------------------------------- a strict total order

  lemma LessTransitive(o: Order, a: Account, b: Account, c: Account)
    requires Less(o, a, b) && Less(o, b, c)
    ensures Less(o, a, c)
  {
    KeysTransitive(KeyOf(o, a), KeyOf(o, b), KeyOf(o, c));
  }

  lemma KeysTransitive(a: Key, b: Key, c: Key)
    requires KeyLess(a, b) && KeyLess(b, c)
    ensures KeyLess(a, c)
  {
  }

  /** Accounts with different ids are ordered one way and not the other. */
  lemma LessTotal(o: Order, a: Account, b: Account)
    ensures !(Less(o, a, b) && Less(o, b, a))
    ensures a.id != b.id ==> Less(o, a, b) || Less(o, b, a)
  {
  }

  predicate UniqueIds(accounts: seq<Account>) {
    forall i, j | 0 <= i < j < |accounts| :: accounts[i].id != accounts[j].id
  }

  ghost predicate StrictlySorted(o: Order, accounts: seq<Account>) {
    forall i, j | 0 <= i < j < |accounts| :: Less(o, accounts[i], accounts[j])
  }

  predicate SameElements(a: seq<Account>, b: seq<Account>) {
    multiset(a) == multiset(b)
  }

  lemma SplitFirst(accounts: seq<Account>)
    requires accounts != []
    ensures multiset(accounts) == multiset{accounts[0]} + multiset(accounts[1..])
    ensures forall a :: a in accounts <==> a == accounts[0] || a in accounts[1..]
  {
    assert accounts == [accounts[0]] + accounts[1..];
  }

  lemma {:induction false} InsertKeeps(o: Order, a: Account, sorted: seq<Account>)
    ensures multiset(Insert(o, a, sorted)) == multiset{a} + multiset(sorted)
  {
    hide Less;
    if sorted != [] && Less(o, sorted[0], a) {
      InsertKeeps(o, a, sorted[1..]);
      SplitFirst(sorted);
    }
  }

  lemma {:induction false} SortKeeps(o: Order, accounts: seq<Account>)
    ensures SameElements(Sort(o, accounts), accounts)
  {
    if accounts != [] {
      SortKeeps(o, accounts[1..]);
      InsertKeeps(o, accounts[0], Sort(o, accounts[1..]));
      SplitFirst(accounts);
    }
  }

  lemma MembersOf(a: seq<Account>, b: seq<Account>)
    requires SameElements(a, b)
    ensures |a| == |b| && forall x :: x in a <==> x in b
  {
    assert |a| == |multiset(a)| && |b| == |multiset(b)|;
    forall x ensures x in a <==> x in b {
      assert x in a <==> x in multiset(a);
    }
  }

  lemma {:induction false} InsertSorts(o: Order, a: Account, sorted: seq<Account>)
    requires StrictlySorted(o, sorted) && forall x | x in sorted :: x.id != a.id
    ensures StrictlySorted(o, Insert(o, a, sorted))
  {
    hide Less;
    if sorted != [] {
      LessTotal(o, a, sorted[0]);
      if Less(o, sorted[0], a) {
        var rest := Insert(o, a, sorted[1..]);
        InsertSorts(o, a, sorted[1..]);
        InsertKeeps(o, a, sorted[1..]);
        forall k | 0 <= k < |rest| ensures Less(o, sorted[0], rest[k]) {
          assert rest[k] in multiset(rest);
          assert rest[k] == a || rest[k] in sorted[1..];
        }
      } else {
        forall k | 0 <= k < |sorted| ensures Less(o, a, sorted[k]) {
          if k > 0 {
            LessTransitive(o, a, sorted[0], sorted[k]);
          }
        }
      }
    }
  }

  lemma {:induction false} SortSorts(o: Order, accounts: seq<Account>)
    requires UniqueIds(accounts)
    ensures StrictlySorted(o, Sort(o, accounts))
  {
    if accounts != [] {
      var rest := Sort(o, accounts[1..]);
      SortSorts(o, accounts[1..]);
      SortKeeps(o, accounts[1..]);
      MembersOf(rest, accounts[1..]);
      hide Insert, Less;
      InsertSorts(o, accounts[0], rest);
    }
  }

  /** A set of accounts has one strictly sorted arrangement. */
  lemma {:induction false} SortedUnique(o: Order, a: seq<Account>, b: seq<Account>)
    requires StrictlySorted(o, a) && StrictlySorted(o, b) && SameElements(a, b)
    ensures a == b
    decreases |a|
  {
    hide Less;
    MembersOf(a, b);
    if a != [] {
      assert a[0] in b && b[0] in a;
      if a[0] != b[0] {
        var i :| 0 <= i < |b| && b[i] == a[0];
        var j :| 0 <= j < |a| && a[j] == b[0];
        LessTotal(o, a[0], b[0]);
        assert false;
      }
      SplitFirst(a);
      SplitFirst(b);
      assert multiset(a[1..]) == multiset(a) - multiset{a[0]};
      assert multiset(b[1..]) == multiset(b) - multiset{b[0]};
      SortedUnique(o, a[1..], b[1..]);
    }
  }

  /** The sorted arrangement does not depend on the arrangement sorted. */
  lemma SortCanonical(o: Order, a: seq<Account>, b: seq<Account>)
    requires UniqueIds(a) && UniqueIds(b) && SameElements(a, b)
    ensures Sort(o, a) == Sort(o, b)
  {
    SortSorts(o, a);
    SortSorts(o, b);
    SortKeeps(o, a);
    SortKeeps(o, b);
    SortedUnique(o, Sort(o, a), Sort(o, b));
  }

  // ---------------------------------------------------------------- filtering

  lemma {:induction false} KeepMembers(accounts: seq<Account>, p: Account -> bool)
    ensures forall x :: x in Keep(accounts, p) <==> x in accounts && p(x)
  {
    if accounts != [] {
      KeepMembers(accounts[1..], p);
      SplitFirst(accounts);
    }
  }

  lemma {:induction false} KeepCounts(accounts: seq<Account>, p: Account -> bool, x: Account)
    ensures multiset(Keep(accounts, p))[x] == if p(x) then multiset(accounts)[x] else 0
  {
    if accounts != [] {
      KeepCounts(accounts[1..], p, x);
      SplitFirst(accounts);
      var rest := Keep(accounts[1..], p);
      assert multiset([accounts[0]] + rest) == multiset{accounts[0]} + multiset(rest);
    }
  }

  lemma {:induction false} KeepUnique(accounts: seq<Account>, p: Account -> bool)
    requires UniqueIds(accounts)
    ensures UniqueIds(Keep(accounts, p))
  {
    if accounts != [] {
      var rest := Keep(accounts[1..], p);
      KeepMembers(accounts[1..], p);
      assert UniqueIds(accounts[1..]);
      KeepUnique(accounts[1..], p);
      assert forall k | 0 <= k < |rest| :: rest[k] in accounts[1..];
    }
  }

  lemma {:induction false} KeepSorted(o: Order, accounts: seq<Account>, p: Account -> bool)
    requires StrictlySorted(o, accounts)
    ensures StrictlySorted(o, Keep(accounts, p))
  {
    hide Less;
    if accounts != [] {
      var rest := Keep(accounts[1..], p);
      KeepSorted(o, accounts[1..], p);
      KeepMembers(accounts[1..], p);
      assert forall k | 0 <= k < |rest| :: rest[k] in accounts[1..];
    }
  }

  /** Sorting, then dropping some accounts, is dropping them first: nothing else changes places. */
  lemma KeepCommutes(o: Order, accounts: seq<Account>, p: Account -> bool)
    requires UniqueIds(accounts)
    ensures Sort(o, Keep(accounts, p)) == Keep(Sort(o, accounts), p)
  {
    hide Sort, Keep, StrictlySorted;
    var sorted := Sort(o, accounts);
    SortKeeps(o, accounts);
    SortSorts(o, accounts);
    KeepSorted(o, sorted, p);
    KeepUnique(accounts, p);
    SortSorts(o, Keep(accounts, p));
    SortKeeps(o, Keep(accounts, p));
    forall x ensures multiset(Keep(accounts, p))[x] == multiset(Keep(sorted, p))[x] {
      KeepCounts(accounts, p, x);
      KeepCounts(sorted, p, x);
    }
    SortedUnique(o, Sort(o, Keep(accounts, p)), Keep(sorted, p));
  }

  // ---------------------------------------------------------------- the queue

  lemma {:induction false} RowsMembers(channels: seq<Channel>, active: Channel -> seq<Account>, g: Gate, a: Account)
    ensures a in Rows(channels, active, g) <==>
              a.id != 0 && !g.cooling(a.id) && g.available(a) && exists c :: c in channels && a in active(c)
  {
    if channels != [] {
      var here := active(channels[0]);
      RowsMembers(channels[1..], active, g, a);
      KeepMembers(here, g.available);
      SortKeeps(PLAIN, Keep(here, g.available));
      MembersOf(ChannelPool(here, g), Keep(here, g.available));
      KeepMembers(ChannelPool(here, g), Servable(g));
      hide ChannelPool, Keep;
      assert forall c :: c in channels <==> c == channels[0] || c in channels[1..];
    }
  }

  /**
    The queue holds exactly the accounts that may serve, each as often as the channels list it, strictly ordered by a total
    order: priority, channel, weight, the sticky account, requests per weight, requests, id.
   */
  lemma QueueMeans(order: seq<Channel>, channels: seq<Channel>, sticky: map<Channel, int>, active: Channel -> seq<Account>, g: Gate)
    requires UniqueIds(Rows(channels, active, g))
    ensures var q := Queue(order, channels, sticky, active, g);
            && StrictlySorted(Order(RanksOf(order), sticky), q) && SameElements(q, Rows(channels, active, g))
            && forall a :: a in q <==> a.id != 0 && !g.cooling(a.id) && g.available(a) && exists c :: c in channels && a in active(c)
  {
    var rows, o := Rows(channels, active, g), Order(RanksOf(order), sticky);
    SortKeeps(o, rows);
    SortSorts(o, rows);
    MembersOf(Sort(o, rows), rows);
    hide Rows, Sort, StrictlySorted;
    forall a ensures a in Sort(o, rows) <==> a.id != 0 && !g.cooling(a.id) && g.available(a) && exists c :: c in channels && a in active(c) {
      RowsMembers(channels, active, g, a);
    }
  }

  lemma {:induction false} KeepTwice(accounts: seq<Account>, p: Account -> bool, q: Account -> bool, both: Account -> bool)
    requires forall a :: both(a) <==> p(a) && q(a)
    ensures Keep(Keep(accounts, p), q) == Keep(accounts, both)
  {
    if accounts != [] {
      KeepTwice(accounts[1..], p, q, both);
      assert ([accounts[0]] + Keep(accounts[1..], p))[1..] == Keep(accounts[1..], p);
      assert [] + Keep(accounts[1..], p) == Keep(accounts[1..], p);
    }
  }

  lemma {:induction false} KeepAppend(a: seq<Account>, b: seq<Account>, p: Account -> bool)
    ensures Keep(a + b, p) == Keep(a, p) + Keep(b, p)
  {
    if a == [] {
      assert a + b == b;
    } else {
      assert (a + b)[0] == a[0] && (a + b)[1..] == a[1..] + b;
      KeepAppend(a[1..], b, p);
      var first := if p(a[0]) then [a[0]] else [];
      assert first + (Keep(a[1..], p) + Keep(b, p)) == (first + Keep(a[1..], p)) + Keep(b, p);
    }
  }

  function OutsideOf(ids: set<nat>): Account -> bool {
    (a: Account) => a.id !in ids
  }

  /** The gate when some more accounts are cooling down. */
  function Cooled(g: Gate, ids: set<nat>): Gate {
    Gate(g.available, (id: nat) => g.cooling(id) || id in ids)
  }

  lemma {:induction false} RowsWithout(channels: seq<Channel>, active: Channel -> seq<Account>, g: Gate, ids: set<nat>)
    ensures Rows(channels, active, Cooled(g, ids)) == Keep(Rows(channels, active, g), OutsideOf(ids))
  {
    if channels != [] {
      var pool := ChannelPool(active(channels[0]), g);
      RowsWithout(channels[1..], active, g, ids);
      KeepTwice(pool, Servable(g), OutsideOf(ids), Servable(Cooled(g, ids)));
      KeepAppend(Keep(pool, Servable(g)), Rows(channels[1..], active, g), OutsideOf(ids));
      assert ChannelPool(active(channels[0]), Cooled(g, ids)) == pool;
    }
  }

  /** Accounts that drop out leave the order of the others alone. */
  lemma DroppingKeepsOrder(order: seq<Channel>, channels: seq<Channel>, sticky: map<Channel, int>, active: Channel -> seq<Account>,
                           g: Gate, ids: set<nat>)
    requires UniqueIds(Rows(channels, active, g))
    ensures Queue(order, channels, sticky, active, Cooled(g, ids)) == Keep(Queue(order, channels, sticky, active, g), OutsideOf(ids))
  {
    RowsWithout(channels, active, g, ids);
    KeepCommutes(Order(RanksOf(order), sticky), Rows(channels, active, g), OutsideOf(ids));
  }

  // ---------------------------------------------------------------- the picker

  ghost predicate IsFirst(o: Order, h: Account, accounts: seq<Account>) {
    h in accounts && forall x | x in accounts && x.id != h.id :: Less(o, h, x)
  }

  predicate OneChannel(accounts: seq<Account>, c: Channel) {
    forall a | a in accounts :: a.provider == c
  }

  lemma FirstOfSorted(o: Order, accounts: seq<Account>, h: Account)
    requires UniqueIds(accounts) && IsFirst(o, h, accounts)
    ensures Sort(o, accounts) != [] && Sort(o, accounts)[0] == h
  {
    var sorted := Sort(o, accounts);
    SortKeeps(o, accounts);
    SortSorts(o, accounts);
    MembersOf(sorted, accounts);
    hide Sort, Less;
    assert h in sorted && sorted[0] in accounts;
    LessTotal(o, sorted[0], h);
    if sorted[0].id == h.id {
      SameIdSame(accounts, sorted[0], h);
    }
  }

  lemma SameIdSame(accounts: seq<Account>, a: Account, b: Account)
    requires UniqueIds(accounts) && a in accounts && b in accounts && a.id == b.id
    ensures a == b
  {
  }

  lemma StickyWins(o: Order, c: Channel, candidates: seq<Account>, kept: Account)
    requires kept in candidates && OneChannel(candidates, c) && c in o.sticky && o.sticky[c] == kept.id
    requires forall x | x in candidates :: x.priority <= kept.priority
    requires forall x | x in candidates && x.priority == kept.priority :: x.Weight() <= kept.Weight()
    ensures IsFirst(o, kept, candidates)
  {
    forall x | x in candidates && x.id != kept.id ensures Less(o, kept, x) {
    }
  }

  lemma PlainWins(o: Order, c: Channel, candidates: seq<Account>, h: Account)
    requires h in candidates && OneChannel(candidates, c)
    requires forall x | x in candidates :: x.priority <= h.priority
    requires forall x | x in candidates && x.priority == h.priority && x.id != h.id :: Less(PLAIN, h, x)
    requires forall x | x in candidates && x.priority == h.priority && x.Weight() == h.Weight() && x.id != h.id ::
               c in o.sticky ==> o.sticky[c] != x.id
    ensures IsFirst(o, h, candidates)
  {
    forall x | x in candidates && x.id != h.id ensures Less(o, h, x) {
    }
  }

  lemma TopMembers(candidates: seq<Account>)
    requires candidates != []
    ensures Top(candidates) != []
    ensures forall x :: x in Top(candidates) <==> x in candidates && forall y | y in candidates :: y.priority <= x.priority
    ensures UniqueIds(candidates) ==> UniqueIds(Top(candidates))
    ensures forall x, y | x in Top(candidates) && y in candidates :: y in Top(candidates) <==> y.priority == x.priority
  {
    var m := MaxPriority(candidates);
    KeepMembers(candidates, (a: Account) => a.priority == m);
    if UniqueIds(candidates) {
      KeepUnique(candidates, (a: Account) => a.priority == m);
    }
    var a :| a in candidates && a.priority == m;
    assert a in Top(candidates);
  }

  function StickyOf(o: Order, c: Channel): Option<int> {
    if c in o.sticky then Some(o.sticky[c]) else None
  }

  lemma HeadOfSorted(o: Order, accounts: seq<Account>)
    requires UniqueIds(accounts) && accounts != []
    ensures Sort(o, accounts) != [] && IsFirst(o, Sort(o, accounts)[0], accounts)
  {
    var sorted := Sort(o, accounts);
    SortKeeps(o, accounts);
    SortSorts(o, accounts);
    MembersOf(sorted, accounts);
    hide Sort, Less;
    forall x | x in accounts && x.id != sorted[0].id ensures Less(o, sorted[0], x) {
      assert x in sorted;
    }
  }

  /** The picker's choice is the first account in the queue's order. */
  lemma ChoiceIsFirst(o: Order, c: Channel, candidates: seq<Account>)
    requires candidates != [] && UniqueIds(candidates) && OneChannel(candidates, c)
    ensures Choose(candidates, StickyOf(o, c)).Some? && IsFirst(o, Choose(candidates, StickyOf(o, c)).value, candidates)
  {
    hide Top, Sort, Less, IsFirst, MaxWeight;
    var top := Top(candidates);
    TopMembers(candidates);
    HeadOfSorted(PLAIN, top);
    var sticky := StickyOf(o, c);
    var kept := if sticky.Some? then WithId(top, sticky.value) else None;
    if sticky.Some? {
      WithIdMatches(top, sticky.value);
    }
    if kept.Some? && kept.value.Weight() == MaxWeight(top) {
      StickyWins(o, c, candidates, kept.value);
    } else {
      PlainHead(o, c, candidates, top, Sort(PLAIN, top)[0], kept);
    }
  }

  lemma PlainHead(o: Order, c: Channel, candidates: seq<Account>, top: seq<Account>, h: Account, kept: Option<Account>)
    requires OneChannel(candidates, c) && top != [] && UniqueIds(candidates) && IsFirst(PLAIN, h, top)
    requires forall x :: x in top <==> x in candidates && forall y | y in candidates :: y.priority <= x.priority
    requires forall x, y | x in top && y in candidates :: y in top <==> y.priority == x.priority
    requires kept.None? ==> c in o.sticky ==> forall x | x in top :: x.id != o.sticky[c]
    requires kept.Some? ==> c in o.sticky && kept.value in top && kept.value.id == o.sticky[c] && kept.value.Weight() != MaxWeight(top)
    ensures IsFirst(o, h, candidates)
  {
    HeaviestFirst(top, h);
    if kept.Some? {
      forall x | x in top && x.id == o.sticky[c] ensures x == kept.value {
        SameIdSame(candidates, x, kept.value);
      }
    }
    hide MaxWeight, Less;
    PlainWins(o, c, candidates, h);
  }

  lemma HeaviestFirst(top: seq<Account>, h: Account)
    requires top != [] && IsFirst(PLAIN, h, top) && forall x | x in top :: x.priority == h.priority
    requires forall x | x in top && x.id == h.id :: x == h
    ensures h.Weight() == MaxWeight(top)
  {
    var a :| a in top && a.Weight() == MaxWeight(top);
    assert a.id != h.id ==> Less(PLAIN, h, a);
  }

  /** For one channel, the queue's rows are the picker's candidates in another arrangement. */
  lemma RowsAreCandidates(c: Channel, active: Channel -> seq<Account>, g: Gate)
    requires forall a | a in active(c) :: a.id != 0
    ensures SameElements(Rows([c], active, g), Candidates(active(c), {}, g))
  {
    var here := active(c);
    var pool := ChannelPool(here, g);
    assert [c][1..] == [] && Keep(pool, Servable(g)) + [] == Keep(pool, Servable(g));
    assert Rows([c], active, g) == Keep(pool, Servable(g));
    SortKeeps(PLAIN, Keep(here, g.available));
    forall x ensures multiset(Keep(pool, Servable(g)))[x] == multiset(Candidates(here, {}, g))[x] {
      KeepCounts(pool, Servable(g), x);
      KeepCounts(here, g.available, x);
      CandidateCounts(here, g, x);
      assert multiset(here)[x] > 0 ==> x in here;
    }
  }

  lemma CandidateCounts(here: seq<Account>, g: Gate, x: Account)
    ensures multiset(Candidates(here, {}, g))[x] == if !g.cooling(x.id) && g.available(x) then multiset(here)[x] else 0
  {
    KeepCounts(here, Pickable({}, g), x);
  }

  lemma UniqueUnderSame(a: seq<Account>, b: seq<Account>)
    requires UniqueIds(a) && SameElements(a, b)
    ensures UniqueIds(b)
  {
    forall i, j | 0 <= i < j < |b| ensures b[i].id != b[j].id {
      MembersOf(a, b);
      assert b[i] in a && b[j] in a;
      if b[i].id == b[j].id {
        SameIdSame(a, b[i], b[j]);
        TwicePresent(b, i, j);
        OnceEach(a);
      }
    }
  }

  lemma TwicePresent(b: seq<Account>, i: nat, j: nat)
    requires i < j < |b| && b[i] == b[j]
    ensures multiset(b)[b[i]] >= 2
  {
    assert b == b[..i] + [b[i]] + b[i + 1..j] + [b[j]] + b[j + 1..];
  }

  lemma {:induction false} OnceEach(a: seq<Account>)
    requires UniqueIds(a)
    ensures forall x :: multiset(a)[x] == if x in a then 1 else 0
  {
    if a != [] {
      SplitFirst(a);
      assert UniqueIds(a[1..]) && a[0] !in a[1..];
      OnceEach(a[1..]);
    }
  }

  /** With nothing excluded, the picker of a channel takes the head of that channel's queue, or nothing when it is empty. */
  lemma PickIsHead(order: seq<Channel>, c: Channel, sticky: map<Channel, int>, active: Channel -> seq<Account>, g: Gate)
    requires UniqueIds(active(c)) && OneChannel(active(c), c) && forall a | a in active(c) :: a.id != 0
    ensures var q := Queue(order, [c], sticky, active, g);
            Choose(Candidates(active(c), {}, g), if c in sticky then Some(sticky[c]) else None) == if q == [] then None else Some(q[0])
  {
    hide Rows, Sort, Choose, Candidates, IsFirst;
    var o := Order(RanksOf(order), sticky);
    var candidates, rows := Candidates(active(c), {}, g), Rows([c], active, g);
    RowsAreCandidates(c, active, g);
    CandidatesOk(active(c), {}, g, c);
    UniqueUnderSame(candidates, rows);
    MembersOf(rows, candidates);
    SortKeeps(o, rows);
    MembersOf(Sort(o, rows), rows);
    if candidates == [] {
      ChooseNothing(if c in sticky then Some(sticky[c]) else None);
    } else {
      ChoiceIsFirst(o, c, candidates);
      FirstUnder(o, Choose(candidates, StickyOf(o, c)).value, candidates, rows);
      FirstOfSorted(o, rows, Choose(candidates, StickyOf(o, c)).value);
    }
  }

  lemma ChooseNothing(sticky: Option<int>)
    ensures Choose([], sticky) == None
  {
  }

  lemma FirstUnder(o: Order, h: Account, a: seq<Account>, b: seq<Account>)
    requires IsFirst(o, h, a) && forall x :: x in a <==> x in b
    ensures IsFirst(o, h, b)
  {
  }

  lemma CandidatesOk(active: seq<Account>, excluded: set<nat>, g: Gate, c: Channel)
    requires UniqueIds(active) && OneChannel(active, c)
    ensures UniqueIds(Candidates(active, excluded, g)) && OneChannel(Candidates(active, excluded, g), c)
  {
    KeepUnique(active, Pickable(excluded, g));
    KeepMembers(active, Pickable(excluded, g));
  }

  // ---------------------------------------------------------------- picking until nothing is left

  function Others(accounts: seq<Account>, h: Account): seq<Account> {
    Keep(accounts, OutsideOf({h.id}))
  }

  /** Excluding the account just picked leaves the other candidates. */
  lemma ExcludeOne(active: seq<Account>, excluded: set<nat>, g: Gate, h: Account)
    ensures Candidates(active, excluded + {h.id}, g) == Others(Candidates(active, excluded, g), h)
  {
    KeepTwice(active, Pickable(excluded, g), OutsideOf({h.id}), Pickable(excluded + {h.id}, g));
  }

  lemma {:induction false} KeepShorter(accounts: seq<Account>, p: Account -> bool)
    ensures |Keep(accounts, p)| <= |accounts|
    ensures (exists a :: a in accounts && !p(a)) ==> |Keep(accounts, p)| < |accounts|
  {
    if accounts != [] {
      KeepShorter(accounts[1..], p);
      assert forall a :: a in accounts <==> a == accounts[0] || a in accounts[1..];
    }
  }

  /** Repeated picks, each excluding all earlier ones; every pick becomes the sticky account. */
  function Picks(candidates: seq<Account>, sticky: Option<int>): seq<Account>
    decreases |candidates|
  {
    var h := Choose(candidates, sticky);
    if h.None? || |Others(candidates, h.value)| >= |candidates| then []
    else [h.value] + Picks(Others(candidates, h.value), Some(h.value.id))
  }

  lemma PickShrinks(o: Order, c: Channel, candidates: seq<Account>)
    requires candidates != [] && UniqueIds(candidates) && OneChannel(candidates, c)
    ensures Choose(candidates, StickyOf(o, c)).Some?
    ensures var h := Choose(candidates, StickyOf(o, c)).value; var others := Others(candidates, h);
            && |others| < |candidates| && UniqueIds(others) && OneChannel(others, c)
            && (forall a | a in others :: a.id != h.id) && Sort(o, candidates) == [h] + Sort(o, others)
  {
    hide Choose, Sort, IsFirst, Less;
    ChoiceIsFirst(o, c, candidates);
    var h := Choose(candidates, StickyOf(o, c)).value;
    FirstMember(o, h, candidates);
    KeepShorter(candidates, OutsideOf({h.id}));
    KeepUnique(candidates, OutsideOf({h.id}));
    KeepMembers(candidates, OutsideOf({h.id}));
    SortWithoutFirst(o, candidates, h);
  }

  lemma FirstMember(o: Order, h: Account, accounts: seq<Account>)
    requires IsFirst(o, h, accounts)
    ensures h in accounts
  {
  }

  lemma SortWithoutFirst(o: Order, accounts: seq<Account>, h: Account)
    requires UniqueIds(accounts) && IsFirst(o, h, accounts)
    ensures Sort(o, accounts) == [h] + Sort(o, Others(accounts, h))
  {
    hide Sort, IsFirst, Less, Keep;
    var sorted := Sort(o, accounts);
    FirstOfSorted(o, accounts, h);
    KeepCommutes(o, accounts, OutsideOf({h.id}));
    SortKeeps(o, accounts);
    UniqueUnderSame(accounts, sorted);
    KeepTail(sorted, h);
  }

  lemma KeepTail(sorted: seq<Account>, h: Account)
    requires UniqueIds(sorted) && sorted != [] && sorted[0] == h
    ensures sorted == [h] + Others(sorted, h)
  {
    KeepAll(sorted[1..], OutsideOf({h.id}));
  }

  lemma {:induction false} KeepAll(accounts: seq<Account>, p: Account -> bool)
    requires forall k | 0 <= k < |accounts| :: p(accounts[k])
    ensures Keep(accounts, p) == accounts
  {
    if accounts != [] {
      KeepAll(accounts[1..], p);
    }
  }

  lemma PicksUnfold(o: Order, c: Channel, candidates: seq<Account>)
    requires candidates != [] && UniqueIds(candidates) && OneChannel(candidates, c)
    ensures Choose(candidates, StickyOf(o, c)).Some?
    ensures var h := Choose(candidates, StickyOf(o, c)).value;
            Picks(candidates, StickyOf(o, c)) == [h] + Picks(Others(candidates, h), Some(h.id))
  {
    hide Choose, Others, Less, Sort;
    PickShrinks(o, c, candidates);
  }

  lemma NoPicks(sticky: Option<int>)
    ensures Picks([], sticky) == [] && Sort(PLAIN, []) == []
  {
  }

  /** When the sticky account is not a candidate, repeated picks walk through the plain order. */
  lemma {:induction false} PicksArePlain(c: Channel, candidates: seq<Account>, sticky: Option<int>)
    requires UniqueIds(candidates) && OneChannel(candidates, c)
    requires sticky.Some? ==> forall a | a in candidates :: a.id != sticky.value
    ensures Picks(candidates, sticky) == Sort(PLAIN, candidates)
    decreases |candidates|
  {
    hide Choose, Others, Less, Picks, Sort;
    if candidates == [] {
      NoPicks(sticky);
    } else {
      var o := Order(map[], if sticky.Some? then map[c := sticky.value] else map[]);
      assert StickyOf(o, c) == sticky;
      PickShrinks(o, c, candidates);
      PicksUnfold(o, c, candidates);
      var h := Choose(candidates, sticky).value;
      var others := Others(candidates, h);
      SameSort(o, candidates);
      OthersMembers(candidates, h);
      SameSort(o, others);
      PicksArePlain(c, others, Some(h.id));
    }
  }

  lemma OthersMembers(candidates: seq<Account>, h: Account)
    ensures forall a :: a in Others(candidates, h) <==> a in candidates && a.id != h.id
  {
    KeepMembers(candidates, OutsideOf({h.id}));
  }

  lemma SameSort(o: Order, accounts: seq<Account>)
    requires UniqueIds(accounts) && o.ranks == map[]
    requires forall a | a in accounts :: a.provider in o.sticky ==> o.sticky[a.provider] != a.id
    ensures Sort(o, accounts) == Sort(PLAIN, accounts)
  {
    var x, y := Sort(o, accounts), Sort(PLAIN, accounts);
    SortKeeps(o, accounts);
    SortKeeps(PLAIN, accounts);
    SortSorts(o, accounts);
    SortSorts(PLAIN, accounts);
    MembersOf(x, accounts);
    hide Sort;
    forall i, j | 0 <= i < j < |x| ensures Less(PLAIN, x[i], x[j]) {
      assert Less(o, x[i], x[j]) && x[i] in accounts && x[j] in accounts;
      assert KeyOf(o, x[i]) == KeyOf(PLAIN, x[i]) && KeyOf(o, x[j]) == KeyOf(PLAIN, x[j]);
    }
    SortedUnique(PLAIN, x, y);
  }

  /** More priority, or the same and more weight. */
  predicate Above(a: Account, b: Account) {
    a.priority > b.priority || (a.priority == b.priority && a.Weight() > b.Weight())
  }

  /**
    The sticky account changes nothing that repeated picks would miss: it is no candidate, or nobody is above it, or it is the
    first of its tier anyway.
   */
  predicate Harmless(candidates: seq<Account>, sticky: Option<int>) {
    forall s | s in candidates && sticky == Some(s.id) ::
      || (forall x | x in candidates :: !Above(x, s))
      || (forall x | x in candidates && x.id != s.id && x.priority == s.priority && x.Weight() == s.Weight() :: Less(PLAIN, s, x))
  }

  lemma SortEqualMeans(a: Order, b: Order, accounts: seq<Account>, x: Account, y: Account)
    requires UniqueIds(accounts) && Sort(a, accounts) == Sort(b, accounts) && x in accounts && y in accounts && x != y
    ensures Less(a, x, y) <==> Less(b, x, y)
  {
    hide Sort, Less, UniqueIds, StrictlySorted;
    var s := Sort(a, accounts);
    SortKeeps(a, accounts);
    SortSorts(a, accounts);
    SortSorts(b, accounts);
    MembersOf(s, accounts);
    assert x in s && y in s;
    SortedAgree(a, b, s, x, y);
  }

  lemma SortedAgree(a: Order, b: Order, s: seq<Account>, x: Account, y: Account)
    requires StrictlySorted(a, s) && StrictlySorted(b, s) && x in s && y in s && x != y
    ensures Less(a, x, y) <==> Less(b, x, y)
  {
    hide Less;
    var i :| 0 <= i < |s| && s[i] == x;
    var j :| 0 <= j < |s| && s[j] == y;
    LessTotal(a, x, y);
    LessTotal(b, x, y);
  }

  lemma SortEqualWhen(a: Order, b: Order, accounts: seq<Account>)
    requires UniqueIds(accounts) && forall x, y | x in accounts && y in accounts && Less(a, x, y) :: Less(b, x, y)
    ensures Sort(a, accounts) == Sort(b, accounts)
  {
    var s, t := Sort(a, accounts), Sort(b, accounts);
    SortKeeps(a, accounts);
    SortKeeps(b, accounts);
    SortSorts(a, accounts);
    SortSorts(b, accounts);
    MembersOf(s, accounts);
    hide Sort, Less;
    assert forall i | 0 <= i < |s| :: s[i] in accounts;
    SortedUnique(b, s, t);
  }

  /** Among the accounts of one channel the sticky one moves only inside its tier. */
  lemma StickyInTier(o: Order, c: Channel, x: Account, y: Account)
    requires x.provider == c && y.provider == c && x.id != y.id
    ensures Less(o, x, y) <==>
              if x.priority == y.priority && x.Weight() == y.Weight() && StickyOf(o, c) == Some(x.id) then true
              else if x.priority == y.priority && x.Weight() == y.Weight() && StickyOf(o, c) == Some(y.id) then false
              else Less(PLAIN, x, y)
  {
  }

  lemma HarmlessSorts(o: Order, c: Channel, accounts: seq<Account>)
    requires UniqueIds(accounts) && OneChannel(accounts, c)
    ensures Sort(o, accounts) == Sort(PLAIN, accounts) <==>
            forall s, x | s in accounts && x in accounts && StickyOf(o, c) == Some(s.id) && x.id != s.id
                          && x.priority == s.priority && x.Weight() == s.Weight() :: Less(PLAIN, s, x)
  {
    hide Sort, Less;
    if Sort(o, accounts) == Sort(PLAIN, accounts) {
      forall s, x | s in accounts && x in accounts && StickyOf(o, c) == Some(s.id) && x.id != s.id
                    && x.priority == s.priority && x.Weight() == s.Weight()
        ensures Less(PLAIN, s, x)
      {
        StickyInTier(o, c, s, x);
        SortEqualMeans(o, PLAIN, accounts, s, x);
      }
    } else if forall s, x | s in accounts && x in accounts && StickyOf(o, c) == Some(s.id) && x.id != s.id
                            && x.priority == s.priority && x.Weight() == s.Weight() :: Less(PLAIN, s, x) {
      forall x, y | x in accounts && y in accounts && Less(o, x, y) ensures Less(PLAIN, x, y) {
        LessTotal(o, x, y);
        if x.id == y.id {
          SameIdSame(accounts, x, y);
        } else {
          StickyInTier(o, c, x, y);
        }
      }
      SortEqualWhen(o, PLAIN, accounts);
    }
  }

  /** Repeated picks among candidates give their sorted list exactly when the sticky account is harmless. */
  lemma PicksAreSorted(o: Order, c: Channel, candidates: seq<Account>)
    requires UniqueIds(candidates) && OneChannel(candidates, c)
    ensures Picks(candidates, StickyOf(o, c)) == Sort(o, candidates) <==> Harmless(candidates, StickyOf(o, c))
  {
    hide Choose, Others, Less, Picks, Sort;
    var sticky := StickyOf(o, c);
    if candidates == [] {
      NoPicks(sticky);
      NothingSorted(o);
    } else {
      PickShrinks(o, c, candidates);
      PicksUnfold(o, c, candidates);
      ChoiceIsFirst(o, c, candidates);
      var h := Choose(candidates, sticky).value;
      var others := Others(candidates, h);
      OthersMembers(candidates, h);
      PicksArePlain(c, others, Some(h.id));
      HarmlessSorts(o, c, others);
      TailsMatter(h, Sort(PLAIN, others), Sort(o, others));
      HarmlessTail(o, c, candidates, h, others);
    }
  }

  lemma NothingSorted(o: Order)
    ensures Sort(o, []) == []
  {
  }

  lemma TailsMatter(h: Account, a: seq<Account>, b: seq<Account>)
    ensures [h] + a == [h] + b <==> a == b
  {
    assert ([h] + a)[1..] == a && ([h] + b)[1..] == b;
  }

  lemma HarmlessTail(o: Order, c: Channel, candidates: seq<Account>, h: Account, others: seq<Account>)
    requires UniqueIds(candidates) && OneChannel(candidates, c) && IsFirst(o, h, candidates)
    requires forall a :: a in others <==> a in candidates && a.id != h.id
    ensures Harmless(candidates, StickyOf(o, c)) <==>
            forall s, x | s in others && x in others && StickyOf(o, c) == Some(s.id) && x.id != s.id
                          && x.priority == s.priority && x.Weight() == s.Weight() :: Less(PLAIN, s, x)
  {
    hide Less;
    forall s | s in candidates && StickyOf(o, c) == Some(s.id)
      ensures s.id == h.id <==> forall x | x in candidates :: !Above(x, s)
      ensures s.id != h.id ==> Above(h, s)
    {
      StickyTop(o, c, candidates, h, s);
    }
  }

  lemma StickyTop(o: Order, c: Channel, candidates: seq<Account>, h: Account, s: Account)
    requires UniqueIds(candidates) && OneChannel(candidates, c) && IsFirst(o, h, candidates)
    requires s in candidates && StickyOf(o, c) == Some(s.id)
    ensures s.id == h.id <==> forall x | x in candidates :: !Above(x, s)
    ensures s.id != h.id ==> Above(h, s)
  {
    if s.id == h.id {
      SameIdSame(candidates, s, h);
    } else {
      assert Less(o, h, s);
    }
  }

  // ---------------------------------------------------------------- the picker asked again and again

  lemma ChooseMember(candidates: seq<Account>, sticky: Option<int>)
    ensures Choose(candidates, sticky).Some? ==> Choose(candidates, sticky).value in candidates
  {
    if candidates != [] {
      var top, m := Top(candidates), MaxPriority(candidates);
      KeepMembers(candidates, (a: Account) => a.priority == m);
      SortKeeps(PLAIN, top);
      MembersOf(Sort(PLAIN, top), top);
      if sticky.Some? {
        WithIdMatches(top, sticky.value);
      }
    }
  }

  /** Excluding the account just picked leaves fewer candidates. */
  lemma PickExcludes(active: seq<Account>, excluded: set<nat>, g: Gate, sticky: Option<int>)
    ensures var h := Choose(Candidates(active, excluded, g), sticky);
            h.Some? ==> |Candidates(active, excluded + {h.value.id}, g)| < |Candidates(active, excluded, g)|
  {
    hide Choose, Candidates;
    var candidates := Candidates(active, excluded, g);
    var h := Choose(candidates, sticky);
    ChooseMember(candidates, sticky);
    if h.Some? {
      ExcludeOne(active, excluded, g, h.value);
      KeepShorter(candidates, OutsideOf({h.value.id}));
    }
  }

  /** The picker asked again and again, with every account picked before excluded; every pick becomes the sticky account. */
  function PickAll(active: seq<Account>, excluded: set<nat>, g: Gate, sticky: Option<int>): seq<Account>
    decreases |Candidates(active, excluded, g)|
  {
    var h := Choose(Candidates(active, excluded, g), sticky);
    PickExcludes(active, excluded, g, sticky);
    if h.None? then [] else [h.value] + PickAll(active, excluded + {h.value.id}, g, Some(h.value.id))
  }

  lemma {:induction false} PickAllIsPicks(active: seq<Account>, excluded: set<nat>, g: Gate, sticky: Option<int>)
    ensures PickAll(active, excluded, g, sticky) == Picks(Candidates(active, excluded, g), sticky)
    decreases |Candidates(active, excluded, g)|
  {
    hide Choose, Candidates, Others;
    var candidates := Candidates(active, excluded, g);
    var h := Choose(candidates, sticky);
    PickExcludes(active, excluded, g, sticky);
    if h.Some? {
      ExcludeOne(active, excluded, g, h.value);
      PickAllIsPicks(active, excluded + {h.value.id}, g, Some(h.value.id));
    }
  }

  /** A channel's queue is its candidates in order. */
  lemma QueueIsSorted(order: seq<Channel>, c: Channel, sticky: map<Channel, int>, active: Channel -> seq<Account>, g: Gate)
    requires UniqueIds(active(c)) && OneChannel(active(c), c) && forall a | a in active(c) :: a.id != 0
    ensures Queue(order, [c], sticky, active, g) == Sort(Order(RanksOf(order), sticky), Candidates(active(c), {}, g))
  {
    hide Rows, Sort, Candidates;
    RowsAreCandidates(c, active, g);
    CandidatesOk(active(c), {}, g, c);
    UniqueUnderSame(Candidates(active(c), {}, g), Rows([c], active, g));
    SortCanonical(Order(RanksOf(order), sticky), Rows([c], active, g), Candidates(active(c), {}, g));
  }

  /**
    Asking the picker again and again, each time with all earlier picks excluded, gives the channel's queue exactly when the
    sticky account is harmless; in particular when it is the head of the queue or no candidate.
   */
  lemma PicksAreQueue(order: seq<Channel>, c: Channel, sticky: map<Channel, int>, active: Channel -> seq<Account>, g: Gate)
    requires UniqueIds(active(c)) && OneChannel(active(c), c) && forall a | a in active(c) :: a.id != 0
    ensures var kept := if c in sticky then Some(sticky[c]) else None;
            PickAll(active(c), {}, g, kept) == Queue(order, [c], sticky, active, g) <==> Harmless(Candidates(active(c), {}, g), kept)
  {
    hide Queue, Sort, Candidates, Picks, PickAll, Harmless;
    var o := Order(RanksOf(order), sticky);
    QueueIsSorted(order, c, sticky, active, g);
    PickAllIsPicks(active(c), {}, g, StickyOf(o, c));
    CandidatesOk(active(c), {}, g, c);
    PicksAreSorted(o, c, Candidates(active(c), {}, g));
  }

  /** The sticky account is harmless if it is no candidate or heads the queue. */
  lemma HeadIsHarmless(order: seq<Channel>, c: Channel, sticky: map<Channel, int>, active: Channel -> seq<Account>, g: Gate)
    requires UniqueIds(active(c)) && OneChannel(active(c), c) && forall a | a in active(c) :: a.id != 0
    requires c in sticky
    requires var q := Queue(order, [c], sticky, active, g);
             (q != [] && q[0].id == sticky[c]) || forall a | a in q :: a.id != sticky[c]
    ensures PickAll(active(c), {}, g, Some(sticky[c])) == Queue(order, [c], sticky, active, g)
  {
    hide Queue, Sort, Candidates, PickAll, IsFirst;
    var o, candidates := Order(RanksOf(order), sticky), Candidates(active(c), {}, g);
    PicksAreQueue(order, c, sticky, active, g);
    QueueIsSorted(order, c, sticky, active, g);
    CandidatesOk(active(c), {}, g, c);
    SortKeeps(o, candidates);
    MembersOf(Sort(o, candidates), candidates);
    if candidates != [] && Sort(o, candidates)[0].id == sticky[c] {
      ChoiceIsFirst(o, c, candidates);
      var h := Choose(candidates, StickyOf(o, c)).value;
      FirstOfSorted(o, candidates, h);
      forall s | s in candidates && sticky[c] == s.id ensures forall x | x in candidates :: !Above(x, s) {
        StickyTop(o, c, candidates, h, s);
      }
    }
  }
}
