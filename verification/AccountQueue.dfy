/**
  The global account queue (router.py, `account_queue`; routing.py, `sort_key` and `order_accounts`) and the sticky
  picker of one channel (auth_manager.py, `pick_account`).

  Numbers are those that the source gets after its conversions; the ratio of requests to weight is exact.
 */
module AccountQueue {
  import opened Options

  type Channel = string

  /** Accounts come from a table whose primary key is `id`. */
  datatype Account = Account(id: nat, provider: Channel, priority: int, rawWeight: int, rawRequests: int)
  {
    function Weight(): (w: int)
      ensures w >= 1
    {
      if rawWeight > 1 then rawWeight else 1
    }

    function Requests(): (r: int)
      ensures r >= 0
    {
      if rawRequests > 0 then rawRequests else 0
    }
  }

  datatype Key = Key(priority: int, rank: int, weight: int, sticky: int, ratio: real, requests: int, id: int)

  /** Larger priority and weight first, everything else smaller first. */
  predicate KeyLess(a: Key, b: Key) {
    if a.priority != b.priority then a.priority > b.priority
    else if a.rank != b.rank then a.rank < b.rank
    else if a.weight != b.weight then a.weight > b.weight
    else if a.sticky != b.sticky then a.sticky < b.sticky
    else if a.ratio != b.ratio then a.ratio < b.ratio
    else if a.requests != b.requests then a.requests < b.requests
    else a.id < b.id
  }

  /** What orders accounts: the place of each channel, and the account each channel used last. */
  datatype Order = Order(ranks: map<Channel, int>, sticky: map<Channel, int>)

  /** The order of `sort_key` alone. */
  const PLAIN := Order(map[], map[])

  function KeyOf(o: Order, a: Account): Key {
    Key(a.priority, if a.provider in o.ranks then o.ranks[a.provider] else |o.ranks|, a.Weight(),
        if a.provider in o.sticky && o.sticky[a.provider] == a.id then 0 else 1,
        a.Requests() as real / a.Weight() as real, a.Requests(), a.id)
  }

  predicate Less(o: Order, a: Account, b: Account) {
    KeyLess(KeyOf(o, a), KeyOf(o, b))
  }

  function Insert(o: Order, a: Account, sorted: seq<Account>): seq<Account> {
    if sorted == [] || !Less(o, sorted[0], a) then [a] + sorted else [sorted[0]] + Insert(o, a, sorted[1..])
  }

  /** The order that a stable sort by key gives. */
  function Sort(o: Order, accounts: seq<Account>): seq<Account> {
    if accounts == [] then [] else Insert(o, accounts[0], Sort(o, accounts[1..]))
  }

  /** The gate of this request: availability, and cooling down after failures. */
  datatype Gate = Gate(available: Account -> bool, cooling: nat -> bool)

  function Keep(accounts: seq<Account>, p: Account -> bool): seq<Account> {
    if accounts == [] then [] else (if p(accounts[0]) then [accounts[0]] else []) + Keep(accounts[1..], p)
  }

  /** The active, available accounts of a channel, in order. */
  function ChannelPool(active: seq<Account>, g: Gate): seq<Account> {
    Sort(PLAIN, Keep(active, g.available))
  }

  function Servable(g: Gate): Account -> bool {
    (a: Account) => a.id != 0 && !g.cooling(a.id)
  }

  /** The accounts of all channels that may serve, channel by channel. */
  function Rows(channels: seq<Channel>, active: Channel -> seq<Account>, g: Gate): seq<Account> {
    if channels == [] then []
    else Keep(ChannelPool(active(channels[0]), g), Servable(g)) + Rows(channels[1..], active, g)
  }

  function RanksOf(order: seq<Channel>): map<Channel, int> {
    map k | 0 <= k < |order| && order[k] !in order[..k] :: order[k] := k
  }

  /** `channels` are those of `order` that the name and the key let through. */
  function Queue(order: seq<Channel>, channels: seq<Channel>, sticky: map<Channel, int>, active: Channel -> seq<Account>, g: Gate)
    : seq<Account>
  {
    Sort(Order(RanksOf(order), sticky), Rows(channels, active, g))
  }

  // ---------------------------------------------------------------- the picker

  function MaxPriority(accounts: seq<Account>): (m: int)
    requires accounts != []
    ensures exists a :: a in accounts && a.priority == m
    ensures forall a | a in accounts :: a.priority <= m
  {
    if |accounts| == 1 then assert accounts[0] in accounts; accounts[0].priority
    else
      var rest := MaxPriority(accounts[1..]);
      assert accounts[0] in accounts && forall a | a in accounts[1..] :: a in accounts;
      assert forall a | a in accounts :: a == accounts[0] || a in accounts[1..];
      if accounts[0].priority > rest then accounts[0].priority else rest
  }

  function MaxWeight(accounts: seq<Account>): (m: int)
    requires accounts != []
    ensures exists a :: a in accounts && a.Weight() == m
    ensures forall a | a in accounts :: a.Weight() <= m
  {
    if |accounts| == 1 then assert accounts[0] in accounts; accounts[0].Weight()
    else
      var rest := MaxWeight(accounts[1..]);
      assert accounts[0] in accounts && forall a | a in accounts[1..] :: a in accounts;
      assert forall a | a in accounts :: a == accounts[0] || a in accounts[1..];
      if accounts[0].Weight() > rest then accounts[0].Weight() else rest
  }

  function Pickable(excluded: set<nat>, g: Gate): Account -> bool {
    (a: Account) => a.id !in excluded && !g.cooling(a.id) && g.available(a)
  }

  function Candidates(active: seq<Account>, excluded: set<nat>, g: Gate): seq<Account> {
    Keep(active, Pickable(excluded, g))
  }

  function Top(candidates: seq<Account>): seq<Account>
    requires candidates != []
  {
    var m := MaxPriority(candidates);
    Keep(candidates, (a: Account) => a.priority == m)
  }

  function WithId(accounts: seq<Account>, id: int): Option<Account> {
    if accounts == [] then None else if accounts[0].id == id then Some(accounts[0]) else WithId(accounts[1..], id)
  }

  /** The account to use next among the candidates; the sticky one only if no other has more weight. */
  function Choose(candidates: seq<Account>, sticky: Option<int>): Option<Account> {
    if candidates == [] then None
    else
      var top := Top(candidates);
      var kept := if sticky.Some? then WithId(top, sticky.value) else None;
      if kept.Some? && top != [] && kept.value.Weight() == MaxWeight(top) then kept
      else
        var sorted := Sort(PLAIN, top);
        if sorted == [] then None else Some(sorted[0])
  }

  class Picker {
    var sticky: map<Channel, int>

    /** Pick an account of one channel that is not excluded; the choice becomes sticky. */
    method PickAccount(provider: Channel, active: seq<Account>, excluded: set<nat>, g: Gate) returns (chosen: Option<Account>)
      modifies this
      ensures chosen == Choose(Candidates(active, excluded, g), if provider in old(sticky) then Some(old(sticky)[provider]) else None)
      ensures sticky == if chosen.Some? then old(sticky)[provider := chosen.value.id] else old(sticky)
    {
      var candidates := Candidates(active, excluded, g);
      if candidates == [] {
        return None;
      }
      var top := Top(candidates);
      if provider in sticky {
        var kept := WithId(top, sticky[provider]);
        if kept.Some? && top != [] && kept.value.Weight() == MaxWeight(top) {
          WithIdMatches(top, sticky[provider]);
          return kept;
        }
      }
      var sorted := Sort(PLAIN, top);
      if sorted == [] {
        return None;
      }
      sticky := sticky[provider := sorted[0].id];
      chosen := Some(sorted[0]);
    }

    /** A dispatched account becomes the sticky one of its channel. */
    method NoteDispatched(account: Account)
      modifies this
      ensures sticky == old(sticky)[account.provider := account.id]
    {
      sticky := sticky[account.provider := account.id];
    }
  }

  lemma {:induction false} WithIdMatches(accounts: seq<Account>, id: int)
    ensures var w := WithId(accounts, id);
            if w.Some? then w.value in accounts && w.value.id == id else forall a | a in accounts :: a.id != id
  {
    if accounts != [] {
      WithIdMatches(accounts[1..], id);
      assert forall a :: a in accounts <==> a == accounts[0] || a in accounts[1..];
    }
  }

  lemma KeepUnfolds(accounts: seq<Account>, k: nat, p: Account -> bool)
    requires k < |accounts|
    ensures Keep(accounts[k..], p) == (if p(accounts[k]) then [accounts[k]] else []) + Keep(accounts[k + 1..], p)
  {
    assert accounts[k..][1..] == accounts[k + 1..];
  }

  method KeepServable(pool: seq<Account>, g: Gate) returns (rows: seq<Account>)
    ensures rows == Keep(pool, Servable(g))
  {
    hide Keep;
    rows := [];
    assert pool[0..] == pool && [] + Keep(pool, Servable(g)) == Keep(pool, Servable(g));
    for k := 0 to |pool|
      invariant rows + Keep(pool[k..], Servable(g)) == Keep(pool, Servable(g))
    {
      KeepUnfolds(pool, k, Servable(g));
      ghost var rest := Keep(pool[k + 1..], Servable(g));
      assert rows + ([pool[k]] + rest) == rows + [pool[k]] + rest && rows + ([] + rest) == rows + rest;
      if pool[k].id != 0 && !g.cooling(pool[k].id) {
        rows := rows + [pool[k]];
      }
    }
    KeepNothing(pool[|pool|..], Servable(g));
  }

  lemma KeepNothing(accounts: seq<Account>, p: Account -> bool)
    requires accounts == []
    ensures Keep(accounts, p) == []
  {
  }

  /** The collecting loops of the queue. */
  method AccountQueueRows(channels: seq<Channel>, active: Channel -> seq<Account>, g: Gate) returns (rows: seq<Account>)
    ensures rows == Rows(channels, active, g)
  {
    hide ChannelPool, Keep;
    rows := [];
    assert channels[0..] == channels;
    for c := 0 to |channels|
      invariant rows + Rows(channels[c..], active, g) == Rows(channels, active, g)
    {
      assert channels[c..][0] == channels[c] && channels[c..][1..] == channels[c + 1..];
      var pool := KeepServable(ChannelPool(active(channels[c]), g), g);
      assert rows + (pool + Rows(channels[c + 1..], active, g)) == rows + pool + Rows(channels[c + 1..], active, g);
      rows := rows + pool;
    }
  }
}
