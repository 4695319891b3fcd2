/**
 The memory manager as the Provider daemon runs it: a chunk table, connections
 and counters updated in place, with the ghost sets `live` and `registered`
 following every adapter call. Each entry is proved against MemoryState.
 */
module MemoryManager {
  import opened Options
  import opened MemoryState
  import opened MemoryInvariant
  import opened MemoryGrants
  import opened MemoryTheorems

  // A chosen chunk while an acquire is under way.
  datatype Draft = Draft(index: nat, origin: Origin, address: nat, registration: nat)

  function PendingOf(ds: seq<Draft>): (r: seq<Pending>)
    ensures |r| == |ds| && forall k :: 0 <= k < |r| ==> r[k] == Pending(ds[k].index, ds[k].origin)
  {
    seq(|ds|, k requires 0 <= k < |ds| => Pending(ds[k].index, ds[k].origin))
  }

  // ------------------------------------------------------- what adapters gave out

  // The addresses and registrations the adapters answer at a set of positions.
  ghost function AddressesAt(a: Adapters, ks: set<nat>): set<nat> {
    set k | k in ks && !a.allocate(k).Refused? :: a.allocate(k).address
  }

  ghost function HandlesAt(a: Adapters, ks: set<nat>): set<nat> { set k | k in ks :: a.register(k) }

  lemma AddressGone(a: Adapters, base: set<nat>, ks: set<nat>, k: nat)
    requires k in ks && !a.allocate(k).Refused? && a.allocate(k).address !in base && Distinct(a)
    ensures base + AddressesAt(a, ks) - {a.allocate(k).address} == base + AddressesAt(a, ks - {k})
  {
    var x := a.allocate(k).address;
    forall y | y in AddressesAt(a, ks - {k}) ensures y != x && y in AddressesAt(a, ks) {
      var i :| i in ks - {k} && !a.allocate(i).Refused? && a.allocate(i).address == y;
      assert i < k || k < i;
    }
    forall y | y in AddressesAt(a, ks) && y != x ensures y in AddressesAt(a, ks - {k}) {
      var i :| i in ks && !a.allocate(i).Refused? && a.allocate(i).address == y;
      assert i in ks - {k};
    }
  }

  lemma HandleGone(a: Adapters, base: set<nat>, ks: set<nat>, k: nat)
    requires k in ks && a.register(k) != 0 && a.register(k) !in base && Distinct(a)
    requires forall i :: i in ks ==> a.register(i) != 0
    ensures base + HandlesAt(a, ks) - {a.register(k)} == base + HandlesAt(a, ks - {k})
  {
    var x := a.register(k);
    forall y | y in HandlesAt(a, ks - {k}) ensures y != x && y in HandlesAt(a, ks) {
      var i :| i in ks - {k} && a.register(i) == y;
      assert i < k || k < i;
    }
    forall y | y in HandlesAt(a, ks) && y != x ensures y in HandlesAt(a, ks - {k}) {
      var i :| i in ks && a.register(i) == y;
      assert i in ks - {k};
    }
  }

  lemma AddressCome(a: Adapters, ks: set<nat>, k: nat)
    ensures AddressesAt(a, ks + {k}) == AddressesAt(a, ks) + if a.allocate(k).Refused? then {} else {a.allocate(k).address}
  {
    forall y | y in AddressesAt(a, ks) ensures y in AddressesAt(a, ks + {k}) {
      var i :| i in ks && !a.allocate(i).Refused? && a.allocate(i).address == y;
      assert i in ks + {k};
    }
    assert k in ks + {k};
  }

  lemma HandleCome(a: Adapters, ks: set<nat>, k: nat)
    ensures HandlesAt(a, ks + {k}) == HandlesAt(a, ks) + {a.register(k)}
  {
    forall y | y in HandlesAt(a, ks) ensures y in HandlesAt(a, ks + {k}) {
      var i :| i in ks && a.register(i) == y;
      assert i in ks + {k};
    }
    assert k in ks + {k};
  }

  predicate Before(i: nat, k: nat) { i < k }
  function Below(k: nat): set<nat> { set i: nat | i < k && Before(i, k) }
  function FreshBelow(ps: seq<Pending>, k: nat): set<nat> { set i: nat | 0 <= i < k && i < |ps| && ps[i].origin.Fresh? }
  ghost function StuckBelow(a: Adapters, k: nat): set<nat> { set i: nat | 0 <= i < k && a.stuck(i) }

  // Quarantining adds to the adapters' sets exactly what stayed registered.
  lemma {:induction false} QuarantineHolds(s: State, ps: seq<Pending>, p: Pool, a: Adapters, k: nat)
    requires k <= |ps| && forall i :: 0 <= i < |ps| ==> ps[i].index < |s.slots|
    requires forall i :: 0 <= i < |ps| && ps[i].origin.Fresh? ==> a.allocate(i).Usable?
    ensures var t := QuarantineFirst(s, ps, p, a, k);
      && t.live == s.live + AddressesAt(a, StuckBelow(a, k) * FreshBelow(ps, k))
      && t.registered == s.registered + HandlesAt(a, StuckBelow(a, k))
      && t == s.(slots := t.slots, allocation := t.allocation, quarantined := t.quarantined, live := t.live,
                 registered := t.registered)
  {
    hide AddressesAt, HandlesAt;
    if k == 0 {
      assert StuckBelow(a, 0) == {} && StuckBelow(a, 0) * FreshBelow(ps, 0) == {};
      NoImage(a);
    } else {
      QuarantineHolds(s, ps, p, a, k - 1);
      var before, fresh' := StuckBelow(a, k - 1), FreshBelow(ps, k - 1);
      assert StuckBelow(a, k) == if a.stuck(k - 1) then before + {k - 1} else before;
      assert FreshBelow(ps, k) == if ps[k - 1].origin.Fresh? then fresh' + {k - 1} else fresh';
      assert StuckBelow(a, k) * FreshBelow(ps, k) ==
        if a.stuck(k - 1) && ps[k - 1].origin.Fresh? then before * fresh' + {k - 1} else before * fresh';
      HandleCome(a, before, k - 1);
      AddressCome(a, before * fresh', k - 1);
    }
  }

  lemma NoImage(a: Adapters)
    ensures AddressesAt(a, {}) == {} && HandlesAt(a, {}) == {}
  {}

  // Installing adds every new address and every registration, and counts the grants.
  lemma {:induction false} InstallHolds(s: State, c: nat, ps: seq<Pending>, p: Pool, a: Adapters, k: nat)
    requires c < |s.connections| && k <= |ps| && forall i :: 0 <= i < |ps| ==> ps[i].index < |s.slots|
    requires forall i :: 0 <= i < |ps| && ps[i].origin.Fresh? ==> a.allocate(i).Usable?
    ensures var t := InstallFirst(s, c, ps, p, a, k);
      && t.live == s.live + AddressesAt(a, FreshBelow(ps, k))
      && t.registered == s.registered + HandlesAt(a, Below(k))
  {
    hide AddressesAt, HandlesAt;
    if k == 0 {
      assert FreshBelow(ps, 0) == {} && Below(0) == {};
      NoImage(a);
    } else {
      InstallHolds(s, c, ps, p, a, k - 1);
      var fresh' := FreshBelow(ps, k - 1);
      assert FreshBelow(ps, k) == if ps[k - 1].origin.Fresh? then fresh' + {k - 1} else fresh';
      assert Below(k) == Below(k - 1) + {k - 1};
      HandleCome(a, Below(k - 1), k - 1);
      AddressCome(a, fresh', k - 1);
    }
  }

  lemma {:induction false} InstallCounts(s: State, c: nat, ps: seq<Pending>, p: Pool, a: Adapters, k: nat)
    requires c < |s.connections| && k <= |ps| && forall i :: 0 <= i < |ps| ==> ps[i].index < |s.slots|
    ensures var t := InstallFirst(s, c, ps, p, a, k);
      && t.granted == Plus(s.granted, p, k)
      && t.connections == s.connections[c := s.connections[c].(granted := Plus(s.connections[c].granted, p, k))]
      && t == s.(slots := t.slots, allocation := t.allocation, granted := t.granted, connections := t.connections,
                 live := t.live, registered := t.registered)
  {
    if k > 0 { InstallCounts(s, c, ps, p, a, k - 1); }
  }

  // ----------------------------------------------------------- one more table entry

  lemma TotalNext(cs: seq<Connection>, k: nat, consumer: string, p: Pool)
    requires k < |cs|
    ensures ConsumerTotal(cs[..k + 1], consumer, p) ==
      ConsumerTotal(cs[..k], consumer, p) + if cs[k].consumer == consumer then Of(cs[k].granted, p) else 0
    ensures ConnectionsOf(cs[..k + 1], consumer) == ConnectionsOf(cs[..k], consumer) + One(cs[k].consumer == consumer)
  {
    assert cs[..k + 1][..k] == cs[..k];
  }

  // A scan that has found enough finds nothing more.
  lemma {:induction false} FreeEnough(slots: seq<Slot>, p: Pool, want: nat, i: nat)
    requires i <= |slots| && (i == |slots| || |FreeBelow(slots, p, want, i)| == want)
    ensures FreeBelow(slots, p, want, |slots|) == FreeBelow(slots, p, want, i)
    decreases |slots| - i
  {
    hide IsFree;
    if i < |slots| { FreeEnough(slots, p, want, i + 1); }
  }

  lemma {:induction false} EmptyEnough(slots: seq<Slot>, want: nat, i: nat)
    requires i <= |slots| && (i == |slots| || |EmptyBelow(slots, want, i)| == want)
    ensures EmptyBelow(slots, want, |slots|) == EmptyBelow(slots, want, i)
    decreases |slots| - i
  {
    if i < |slots| { EmptyEnough(slots, want, i + 1); }
  }

  class Manager {
    const config: Config
    const slots: array<Slot>
    var connections: seq<Connection>
    var allocation: Counts
    var granted: Counts
    var quarantined: int
    var healthy: bool
    ghost var live: set<nat>
    ghost var registered: set<nat>

    ghost function Model(): State
      reads this, slots
    {
      State(config, slots[..], connections, allocation, granted, quarantined, healthy, live, registered)
    }

    ghost predicate Valid()
      reads this, slots
    {
      Inv(Model())
    }

    constructor (c: Config)
      requires ConfigValid(c)
      ensures Valid() && Model() == Create(c) && fresh(slots)
    {
      config := c;
      slots := new Slot[c.maximum.opportunistic + c.maximum.committed](_ => EMPTY);
      connections, allocation, granted, quarantined, healthy := [], Counts(0, 0), Counts(0, 0), 0, true;
      live, registered := {}, {};
      new;
      hide Inv;
      CreateInv(c);
      assert slots[..] == Create(c).slots;
    }

    // ------------------------------------------------------------ connections

    method FindOwner(owner: nat) returns (r: Option<nat>)
      ensures r == FindConnection(connections, owner, 0)
    {
      for index := 0 to |connections|
        invariant FindConnection(connections, owner, 0) == FindConnection(connections, owner, index)
      {
        if connections[index].owner == owner { return Some(index); }
      }
      return None;
    }

    method CountConnections(consumer: string) returns (count: nat)
      ensures count == ConnectionsOf(connections, consumer)
    {
      count := 0;
      for index := 0 to |connections|
        invariant count == ConnectionsOf(connections[..index], consumer)
      {
        TotalNext(connections, index, consumer, Opportunistic);
        if connections[index].consumer == consumer { count := count + 1; }
      }
      assert connections[..|connections|] == connections;
    }

    method ConsumerUse(consumer: string) returns (use: Counts)
      ensures forall p :: Of(use, p) == ConsumerTotal(connections, consumer, p)
    {
      use := Counts(0, 0);
      for index := 0 to |connections|
        invariant forall p :: Of(use, p) == ConsumerTotal(connections[..index], consumer, p)
      {
        forall p ensures ConsumerTotal(connections[..index + 1], consumer, p) ==
          ConsumerTotal(connections[..index], consumer, p)
          + if connections[index].consumer == consumer then Of(connections[index].granted, p) else 0
        {
          TotalNext(connections, index, consumer, p);
        }
        if connections[index].consumer == consumer {
          use := Counts(use.opportunistic + connections[index].granted.opportunistic,
                        use.committed + connections[index].granted.committed);
        }
      }
      assert connections[..|connections|] == connections;
    }

    method Connect(consumer: string, owner: nat, limits: Limits, room: bool) returns (result: Result)
      requires Valid()
      modifies this
      ensures Valid() && (Model(), result) == MemoryState.Connect(old(Model()), consumer, owner, limits, room)
    {
      hide Inv, ConnectionsOf, ConsumerIdValid;
      ConnectKeeps(Model(), consumer, owner, limits, room);
      if !ConsumerIdValid(consumer) || owner == 0 || limits.connections == 0 || limits.chunks == Counts(0, 0) {
        return InvalidArgument;
      }
      var found := FindOwner(owner);
      if found.Some? { return InvalidArgument; }
      var count := CountConnections(consumer);
      if count >= limits.connections { return ConnectionLimit; }
      for index := 0 to |connections|
        invariant forall i :: 0 <= i < index && connections[i].consumer == consumer ==> connections[i].limits == limits
      {
        if connections[index].consumer == consumer && connections[index].limits != limits { return InvalidArgument; }
      }
      if !room { return AllocationFailed; }
      connections := connections + [Connection(consumer, owner, limits, Counts(0, 0))];
      return Ok;
    }

    // --------------------------------------------------------------- releasing

    method ReleaseChunk(c: nat, id: nat, cause: Cause, stuck: bool) returns (result: Result)
      requires c < |connections| && id < slots.Length
      modifies this, slots
      ensures (Model(), result) == ReleaseOne(old(Model()), c, id, cause, stuck)
    {
      var slot := slots[id];
      if slot.registration != 0 && stuck {
        healthy := false;
        return CleanupFailed;
      }
      ghost var s := Model();
      registered := registered - {slot.registration};
      slots[id] := slot.(registration := 0, owner := 0);
      var pool := if slot.pool == Some(Opportunistic) then Opportunistic else Committed;
      granted := Plus(granted, pool, -1);
      connections := connections[c := connections[c].(granted := Plus(connections[c].granted, pool, -1))];
      if cause.ByPressure? || pool.Committed? {
        live := live - {slot.address};
        slots[id] := slots[id].(address := 0, pool := None);
        allocation := Plus(allocation, pool, -1);
      }
      assert slots[..] == s.slots[id := slots[id]];
      return Ok;
    }

    method ReleaseCheck(owner: nat, ids: seq<nat>, cause: Cause) returns (result: Result)
      ensures result == ReleaseRefusal(Model(), owner, ids, cause, |ids|)
    {
      ghost var s := Model();
      for index := 0 to |ids|
        invariant ReleaseRefusal(s, owner, ids, cause, index) == Ok
      {
        var id := ids[index];
        RefusalStays(s, owner, ids, cause, index + 1);
        if id >= slots.Length || slots[id].owner != owner { return NotFound; }
        if cause.ByPressure? && slots[id].pool == Some(Committed) { return CommittedProtected; }
        for other := 0 to index
          invariant id !in ids[..other]
        {
          if ids[other] == id {
            assert ids[..index][other] == id;
            return InvalidArgument;
          }
        }
      }
      return Ok;
    }

    method Release(owner: nat, ids: seq<nat>, cause: Cause, a: Adapters) returns (result: Result)
      requires Valid()
      modifies this, slots
      ensures Valid() && (Model(), result) == MemoryState.Release(old(Model()), owner, ids, cause, a)
    {
      hide Inv, ReleaseRefusal, ReleaseOne;
      ghost var s := Model();
      ReleaseCallKeeps(s, owner, ids, cause, a);
      if owner == 0 || ids == [] { return InvalidArgument; }
      var found := FindOwner(owner);
      if found.None? { return NotConnected; }
      result := ReleaseCheck(owner, ids, cause);
      if result != Ok { return; }
      AcceptedInTable(s, owner, ids, cause, |ids|);
      var index := 0;
      while index < |ids|
        invariant index <= |ids| && result == Ok && (Model(), Ok) == ReleaseFirst(s, found.value, ids, cause, a, index)
      {
        result := ReleaseChunk(found.value, ids[index], cause, a.stuck(index));
        index := index + 1;
        if result != Ok {
          ReleaseStays(s, found.value, ids, cause, a, index);
          return;
        }
      }
    }

    method Disconnect(owner: nat, a: Adapters) returns (result: Result)
      requires Valid()
      modifies this, slots
      ensures Valid() && (Model(), result) == MemoryState.Disconnect(old(Model()), owner, a)
    {
      hide Inv, ReleaseOne;
      ghost var s := Model();
      DisconnectKeeps(s, owner, a);
      if owner == 0 { return InvalidArgument; }
      var found := FindOwner(owner);
      if found.None? { return NotConnected; }
      var c := found.value;
      var index := 0;
      while index < slots.Length
        invariant index <= slots.Length && (Model(), Ok) == GiveUpBelow(s, c, owner, a, index)
      {
        index := index + 1;
        if slots[index - 1].owner == owner {
          result := ReleaseChunk(c, index - 1, ByDisconnect, a.stuck(index - 1));
          if result != Ok {
            GiveUpStays(s, c, owner, a, index);
            return;
          }
        }
      }
      connections := connections[c := connections[|connections| - 1]][..|connections| - 1];
      return Ok;
    }

    // --------------------------------------------------------------- acquiring

    method Contains(ds: seq<Draft>, index: nat) returns (found: bool)
      ensures found == exists k :: 0 <= k < |ds| && ds[k].index == index
    {
      for k := 0 to |ds|
        invariant forall j :: 0 <= j < k ==> ds[j].index != index
      {
        if ds[k].index == index { return true; }
      }
      return false;
    }

    // Adds free chunks of a pool until there are enough drafts.
    method TakeFree(pool: Pool, origin: Origin, before: seq<Draft>, n: nat) returns (ds: seq<Draft>)
      requires |before| <= n && Blank(slots[..], before) && !origin.Fresh?
      ensures Blank(slots[..], ds)
      ensures PendingOf(ds) == Taken(slots[..], pool, origin, PendingOf(before), n, slots.Length)
    {
      hide IsFree, Blank, PendingOf, Taken;
      ghost var view, ps := slots[..], PendingOf(before);
      ds := before;
      var index := 0;
      TakenNone(view, pool, origin, ps, n);
      while index < slots.Length && |ds| < n
        invariant index <= slots.Length && |ds| <= n && Blank(view, ds)
        invariant PendingOf(ds) == Taken(view, pool, origin, ps, n, index)
      {
        TakenNext(view, pool, origin, ps, n, index);
        if IsFree(slots[index], pool) {
          var draft := Draft(index, origin, slots[index].address, 0);
          OneMore(view, ds, draft);
          ds := ds + [draft];
        }
        index := index + 1;
      }
      TakenEnough(view, pool, origin, ps, n, index);
    }

    method TakeEmpty(before: seq<Draft>, n: nat) returns (ds: seq<Draft>)
      requires |before| <= n && Blank(slots[..], before) && Untaken(slots[..], before, 0)
      ensures Blank(slots[..], ds)
      ensures PendingOf(ds) == Filled(slots[..], PendingOf(before), n, slots.Length)
    {
      hide Blank, PendingOf, Filled, Untaken;
      ghost var view, ps := slots[..], PendingOf(before);
      ds := before;
      var index := 0;
      FilledNone(view, ps, n);
      while index < slots.Length && |ds| < n
        invariant index <= slots.Length && |ds| <= n && Blank(view, ds) && Untaken(view, ds, index)
        invariant PendingOf(ds) == Filled(view, ps, n, index)
      {
        FilledNext(view, ps, n, index);
        UntakenNext(view, ds, index);
        if slots[index].address == 0 {
          var taken := Contains(ds, index);
          if !taken { ds := ds + [Draft(index, Fresh, 0, 0)]; }
        }
        index := index + 1;
      }
      FilledEnough(view, ps, n, index);
    }

    // Free chunks of the pool, then for a committed request free opportunistic ones.
    method Reuse(p: Pool, n: nat) returns (ds: seq<Draft>, same: nat)
      ensures |ds| <= n && Blank(slots[..], ds)
      ensures var first := FreeBelow(slots[..], p, n, slots.Length);
        var second := if p.Committed? then FreeBelow(slots[..], Opportunistic, n - |first|, slots.Length) else [];
        same == |first| && PendingOf(ds) == Tagged(first, SamePool) + Tagged(second, Converted)
      ensures Untaken(slots[..], ds, 0)
    {
      hide FreeBelow, IsFree, Blank;
      assert Blank(slots[..], []) by { NoDrafts(slots[..]); }
      ds := TakeFree(p, SamePool, [], n);
      same := |ds|;
      ghost var first, second: seq<nat> := FreeBelow(slots[..], p, n, slots.Length), [];
      assert PendingOf(ds) == Tagged(first, SamePool);
      if p.Committed? {
        second := FreeBelow(slots[..], Opportunistic, n - same, slots.Length);
        ds := TakeFree(Opportunistic, Converted, ds, n);
      }
      TakenHaveMemory(slots[..], p, ds, first, second);
    }

    method Choose(p: Pool, n: nat) returns (ds: seq<Draft>, same: nat, created: nat)
      ensures Blank(slots[..], ds) && PendingOf(ds) == Selection(slots[..], p, n)
      ensures same == CountOf(PendingOf(ds), SamePool) && created == CountOf(PendingOf(ds), Fresh)
    {
      hide FreeBelow, EmptyBelow, CountOf, IsFree, Blank;
      ds, same := Reuse(p, n);
      var reused := |ds|;
      ds := TakeEmpty(ds, n);
      created := |ds| - reused;
      ghost var first := FreeBelow(slots[..], p, n, slots.Length);
      PartCounts(first, if p.Committed? then FreeBelow(slots[..], Opportunistic, n - |first|, slots.Length) else [],
                 EmptyBelow(slots[..], n - reused, slots.Length));
    }

    // The checks before an acquire, and the chunks it would use.
    method Plan(c: nat, p: Pool, n: nat, reading: Option<nat>) returns (verdict: Result, ds: seq<Draft>)
      requires c < |connections|
      ensures verdict == Admit(Model(), c, p, n, reading)
      ensures verdict == Ok ==> Blank(slots[..], ds) && PendingOf(ds) == Selection(slots[..], p, n)
    {
      hide Selection, ConsumerTotal, CountOf, Blank;
      ds := [];
      var use := ConsumerUse(connections[c].consumer);
      var taken, quota := Of(use, p), Of(connections[c].limits.chunks, p);
      if taken > quota || n > quota - taken { return QuotaExceeded, ds; }
      var same, created;
      ds, same, created := Choose(p, n);
      if |ds| != n { return PoolExhausted, ds; }
      if Of(allocation, p) > Of(config.maximum, p) || n - same > Of(config.maximum, p) - Of(allocation, p) {
        return PoolExhausted, ds;
      }
      if created != 0 {
        if reading.None? { return AccountingFailed, ds; }
        if reading.value / GIB < config.reserve + created { return HostReserve, ds; }
      }
      return Ok, ds;
    }

    // Allocates and touches what is new, stopping at the first failure.
    method AllocateAll(before: seq<Draft>, a: Adapters) returns (ds: seq<Draft>, failure: Result)
      requires forall k :: 0 <= k < |before| ==> before[k].registration == 0 && (before[k].origin.Fresh? ==> before[k].address == 0)
      requires forall k: nat :: !a.allocate(k).Refused? ==> a.allocate(k).address != 0
      modifies `live
      ensures var ps := PendingOf(before);
        var stop := AllocationStop(ps, a, 0);
        && PendingOf(ds) == ps && Obtained(before, ds, a, if stop < |ps| then stop + 1 else stop)
        && live == old(live) + AddressesAt(a, FreshBelow(ps, if stop < |ps| then stop + 1 else stop))
        && failure == if stop == |ps| then Ok else if a.allocate(stop).Refused? then AllocationFailed else TouchFailed
    {
      hide AddressesAt, FreshBelow, Obtained, AllocationStop;
      ds := before;
      ghost var ps := PendingOf(before);
      NothingObtained(before, a);
      for index := 0 to |before|
        invariant PendingOf(ds) == ps && Obtained(before, ds, a, index)
        invariant AllocationStop(ps, a, 0) == AllocationStop(ps, a, index)
        invariant live == old(live) + AddressesAt(a, FreshBelow(ps, index))
      {
        FreshNext(ps, a, index);
        ObtainNext(before, ds, a, index);
        if ds[index].origin.Fresh? {
          var answer := a.allocate(index);
          if answer.Refused? { return ds, AllocationFailed; }
          ds := ds[index := ds[index].(address := answer.address)];
          live := live + {answer.address};
          if answer.Untouchable? { return ds, TouchFailed; }
        }
      }
      failure := Ok;
    }

    // Registers in order, stopping at the first refusal; `last` counts the successes.
    method RegisterAll(before: seq<Draft>, a: Adapters) returns (ds: seq<Draft>, last: nat)
      requires forall k :: 0 <= k < |before| ==> before[k].registration == 0
      modifies `registered
      ensures last == RegistrationStop(|before|, a, 0) && |ds| == |before|
      ensures registered == old(registered) + HandlesAt(a, Below(last))
      ensures forall k :: 0 <= k < |ds| ==> ds[k] == before[k].(registration := if k < last then a.register(k) else 0)
    {
      hide HandlesAt;
      ds := before;
      NoImage(a);
      assert Below(0) == {};
      for index := 0 to |before|
        invariant |ds| == |before| && RegistrationStop(|before|, a, 0) == RegistrationStop(|before|, a, index)
        invariant registered == old(registered) + HandlesAt(a, Below(index))
        invariant forall k :: 0 <= k < |ds| ==> ds[k] == before[k].(registration := if k < index then a.register(k) else 0)
      {
        var handle := a.register(index);
        if handle == 0 { return ds, index; }
        HandleCome(a, Below(index), index);
        assert Below(index + 1) == Below(index) + {index};
        ds := ds[index := ds[index].(registration := handle)];
        registered := registered + {handle};
      }
      last := |before|;
    }

    // A draft whose registration could not be undone stays in the table, quarantined.
    method SetAside(d: Draft, p: Pool)
      requires d.index < slots.Length
      modifies this, slots
      ensures Model() == Sequestered(old(Model()), d, p)
    {
      ghost var s := Model();
      if d.origin.Fresh? {
        slots[d.index] := slots[d.index].(address := d.address, pool := Some(p));
        allocation := Plus(allocation, p, 1);
      }
      slots[d.index] := slots[d.index].(registration := d.registration, quarantined := true);
      quarantined := quarantined + 1;
      assert slots[..] == s.slots[d.index := slots[d.index]];
    }

    // First half of a rollback: deregister what was registered, quarantining what cannot be.
    method Undo(before: seq<Draft>, p: Pool, a: Adapters, last: nat, ghost s: State) returns (ds: seq<Draft>, failed: bool)
      requires last <= |before| && Staged(s, before, a, last) && Distinct(a) && Unused(s, a, 0)
      requires Model() == s.(live := live, registered := s.registered + HandlesAt(a, Below(last)))
      modifies this, slots
      ensures failed == SomeStuck(a, last) && |ds| == |before|
      ensures Model() == QuarantineFirst(s, PendingOf(before), p, a, last).(live := old(live))
      ensures forall k :: 0 <= k < |ds| ==>
        ds[k] == before[k].(registration := if k < last && a.stuck(k) then a.register(k) else 0)
    {
      hide HandlesAt, QuarantineFirst, AddressesAt, Distinct, Unused, SomeStuck, Kept, Sequestered;
      ds, failed := before, false;
      ghost var ps := PendingOf(before);
      UndoStarts(s, ps, p, a, last);
      for index := 0 to |before|
        invariant |ds| == |before|
        invariant forall k :: 0 <= k < |ds| ==>
          ds[k] == before[k].(registration := if k < last && (k >= index || a.stuck(k)) then a.register(k) else 0)
        invariant Model() == QuarantineFirst(s, ps, p, a, Early(index, last)).(
          live := old(live), registered := s.registered + HandlesAt(a, Kept(a, index, last)))
        invariant failed == SomeStuck(a, Early(index, last))
      {
        UndoNext(s, ps, p, a, index, last);
        if ds[index].registration != 0 {
          ghost var t := QuarantineFirst(s, ps, p, a, index);
          if a.stuck(index) {
            failed := true;
            QuarantineAgrees(t, ps, p, a, index, ds[index], live, registered);
            SetAside(ds[index], p);
          } else {
            registered := registered - {ds[index].registration};
            ds := ds[index := ds[index].(registration := 0)];
          }
        }
      }
      UndoEnds(s, ps, p, a, |before|, last);
    }

    // Second half: give back the new memory that is no longer registered.
    method Drop(ds: seq<Draft>, a: Adapters, ghost base: set<nat>, ghost got: set<nat>)
      requires Distinct(a) && live == base + AddressesAt(a, got) && Gotten(ds, a, base, got)
      modifies `live
      ensures live == base + AddressesAt(a, Holding(ds, got, |ds|))
    {
      hide AddressesAt, Distinct;
      assert Holding(ds, got, 0) == got;
      for index := 0 to |ds|
        invariant live == base + AddressesAt(a, Holding(ds, got, index))
      {
        assert Holding(ds, got, index + 1) ==
          if index in got && ds[index].registration == 0 then Holding(ds, got, index) - {index} else Holding(ds, got, index);
        if ds[index].origin.Fresh? && ds[index].address != 0 && ds[index].registration == 0 {
          AddressGone(a, base, Holding(ds, got, index), index);
          live := live - {ds[index].address};
        }
      }
    }

    method Rollback(ds: seq<Draft>, p: Pool, a: Adapters, last: nat, ghost s: State, ghost got: set<nat>) returns (failed: bool)
      requires last <= |ds| && Staged(s, ds, a, last) && Distinct(a) && Unused(s, a, 0) && Gotten(ds, a, s.live, got)
      requires last > 0 ==> got == FreshBelow(PendingOf(ds), |ds|)
      requires Model() == s.(live := s.live + AddressesAt(a, got), registered := s.registered + HandlesAt(a, Below(last)))
      modifies this, slots
      ensures failed == SomeStuck(a, last) && Model() == QuarantineFirst(s, PendingOf(ds), p, a, last)
    {
      hide HandlesAt, QuarantineFirst, AddressesAt, Distinct, Unused, SomeStuck, Staged;
      var undone;
      undone, failed := Undo(ds, p, a, last, s);
      Drop(undone, a, s.live, got);
      RolledBack(s, ds, undone, p, a, last, got);
    }

    // Hands one registered draft to its owner; the grant counts follow once all are installed.
    method InstallDraft(d: Draft, owner: nat, p: Pool)
      requires d.index < slots.Length
      modifies this, slots
      ensures Model() == Installed(old(Model()), d, owner, p)
    {
      ghost var s := Model();
      if d.origin.Fresh? { slots[d.index] := slots[d.index].(address := d.address); }
      if d.origin.Converted? {
        allocation := Plus(Plus(allocation, Opportunistic, -1), p, 1);
      } else if d.origin.Fresh? {
        allocation := Plus(allocation, p, 1);
      }
      slots[d.index] := slots[d.index].(pool := Some(p), owner := owner, registration := d.registration);
      assert slots[..] == s.slots[d.index := slots[d.index]];
    }

    method InstallAll(ds: seq<Draft>, c: nat, p: Pool, a: Adapters, ghost s: State) returns (grants: seq<Grant>)
      requires c < |s.connections| && Staged(s, ds, a, |ds|) && ds != [] && Separate(s, ds)
      requires Model() == s.(live := s.live + AddressesAt(a, FreshBelow(PendingOf(ds), |ds|)),
                             registered := s.registered + HandlesAt(a, Below(|ds|)))
      modifies this, slots
      ensures Model() == InstallFirst(s, c, PendingOf(ds), p, a, |ds|) && grants == GrantsOf(s, PendingOf(ds), p, a)
    {
      hide HandlesAt, AddressesAt, InstallFirst, Installed, Staged, FreshBelow, Below;
      grants := [];
      ghost var ps, held, handles := PendingOf(ds), live, registered;
      StagedIndex(s, ds, a, |ds|);
      InstallsNone(s, c, ps, p, a);
      var owner := connections[c].owner;
      for k := 0 to |ds|
        invariant Model() == InstallFirst(s, c, ps, p, a, k).(
          granted := s.granted, connections := s.connections, live := held, registered := handles)
        invariant |grants| == k && forall i :: 0 <= i < k ==> grants[i] == GrantsOf(s, ps, p, a)[i]
      {
        InstallAgrees(s, c, ds, p, a, k, held, handles);
        InstallDraft(ds[k], owner, p);
        grants := grants + [Grant(ds[k].index, slots[ds[k].index].address, slots[ds[k].index].registration, p)];
      }
      granted := Plus(granted, p, |ds|);
      connections := connections[c := connections[c].(granted := Plus(connections[c].granted, p, |ds|))];
      InstallCounts(s, c, ps, p, a, |ds|);
      InstallStaged(s, c, ds, p, a);
    }

    // Allocates, registers and installs the chosen chunks, or undoes what was done.
    method CarryOut(c: nat, p: Pool, chosen: seq<Draft>, a: Adapters) returns (result: Result, grants: seq<Grant>)
      requires c < |connections| && chosen != [] && Blank(slots[..], chosen) && AnswersNew(Model(), a)
      requires forall i, j :: 0 <= i < j < |chosen| ==> chosen[i].index != chosen[j].index
      modifies this, slots
      ensures (Model(), result, grants) == Carry(old(Model()), c, PendingOf(chosen), p, a)
    {
      hide QuarantineFirst, InstallFirst, GrantsOf, Distinct, Unused, AddressesAt, HandlesAt, SomeStuck, Staged, Gotten,
        Separate, Obtained, GotBelow, FreshBelow, AllocationStop, RegistrationStop, Below;
      ghost var s, ps := Model(), PendingOf(chosen);
      NoHandles(a);
      UnusedNonzero(s, a);
      grants := [];
      var ds;
      ds, result := AllocateAll(chosen, a);
      AllocationStaged(s, chosen, ds, a, if result == Ok then |ds| else AllocationStop(ps, a, 0) + 1);
      if result != Ok {
        var failed := Rollback(ds, p, a, 0, s, GotBelow(ps, a, AllocationStop(ps, a, 0) + 1));
        UndoStarts(s, ps, p, a, 0);
      } else {
        var es, last := RegisterAll(ds, a);
        RegistrationStaged(s, chosen, ds, es, a, last);
        if last < |es| {
          var failed := Rollback(es, p, a, last, s, FreshBelow(ps, |ps|));
          result := RegistrationFailed;
          if failed {
            healthy := false;
            result := CleanupFailed;
          }
        } else {
          grants := InstallAll(es, c, p, a, s);
        }
      }
    }

    method Acquire(owner: nat, p: Pool, n: nat, a: Adapters) returns (result: Result, grants: seq<Grant>)
      requires Valid() && AnswersNew(Model(), a)
      modifies this, slots
      ensures Valid() && (Model(), result, grants) == MemoryState.Acquire(old(Model()), owner, p, n, a)
    {
      hide Inv, Admit, Selection, Carry, AnswersNew, Blank;
      ghost var s := Model();
      AcquireKeeps(s, owner, p, n, a);
      grants := [];
      if owner == 0 || n == 0 { return InvalidArgument, []; }
      if !a.scratch { return AllocationFailed, []; }
      var found := FindOwner(owner);
      if found.None? { return NotConnected, []; }
      var ds;
      result, ds := Plan(found.value, p, n, a.reading);
      if result != Ok { return; }
      SelectionInTable(s.slots, p, n);
      SelectedApart(s, found.value, p, n, a.reading, ds);
      result, grants := CarryOut(found.value, p, ds, a);
    }

    // -------------------------------------------------------------- reconciling

    // Allocates every chosen slot, or gives back what was allocated.
    method GrowInto(chosen: seq<Draft>, a: Adapters) returns (result: Result)
      requires AnswersNew(Model(), a) && Blank(slots[..], chosen)
      requires forall k :: 0 <= k < |chosen| ==> chosen[k].origin.Fresh?
      modifies this, slots
      ensures var s, ps := old(Model()), PendingOf(chosen);
        var stop := AllocationStop(ps, a, 0);
        (Model(), result) ==
          if stop < |ps| then (s, if a.allocate(stop).Refused? then AllocationFailed else TouchFailed)
          else (PlaceFirst(s, ps, a, |ps|), Ok)
    {
      hide PlaceFirst, AddressesAt, HandlesAt, Distinct, Unused, Gotten, Obtained, GotBelow, FreshBelow, Staged, Holding;
      ghost var s, ps := Model(), PendingOf(chosen);
      UnusedNonzero(s, a);
      var ds;
      ds, result := AllocateAll(chosen, a);
      AllocationStaged(s, chosen, ds, a, if result == Ok then |ds| else AllocationStop(ps, a, 0) + 1);
      if result == Ok {
        PlaceAll(chosen, ds, a, s);
      } else {
        ghost var got := GotBelow(ps, a, AllocationStop(ps, a, 0) + 1);
        Drop(ds, a, s.live, got);
        NothingHeld(ds, a, s.live, got);
        assert live == s.live;
      }
    }

    method GrowBy(n: nat, a: Adapters) returns (result: Result)
      requires AnswersNew(Model(), a)
      modifies this, slots
      ensures (Model(), result) == Grow(old(Model()), n, a)
    {
      hide EmptyBelow, PlaceFirst, AnswersNew, AllocationStop, Grow;
      GrowMeans(Model(), n, a);
      if n == 0 {
        result := Ok;
      } else if !a.scratch {
        result := AllocationFailed;
      } else {
        var chosen := TakeEmpty([], n);
        ChosenEmpty(slots[..], n, chosen);
        if |chosen| != n {
          result := PoolExhausted;
        } else {
          result := GrowInto(chosen, a);
        }
      }
    }

    method PlaceAll(chosen: seq<Draft>, ds: seq<Draft>, a: Adapters, ghost s: State)
      requires Blank(s.slots, chosen) && Obtained(chosen, ds, a, |ds|) && AllocationStop(PendingOf(chosen), a, 0) == |chosen|
      requires forall k :: 0 <= k < |chosen| ==> chosen[k].origin.Fresh?
      requires Model() == s.(live := s.live + AddressesAt(a, FreshBelow(PendingOf(chosen), |chosen|)))
      modifies this, slots
      ensures Model() == PlaceFirst(s, PendingOf(chosen), a, |chosen|)
    {
      hide PlaceFirst, AddressesAt, FreshBelow, AllocationStop;
      ghost var ps, held := PendingOf(chosen), live;
      PlacesNone(s, ps, a);
      for k := 0 to |ds|
        invariant Model() == PlaceFirst(s, ps, a, k).(allocation := s.allocation, live := held)
      {
        ghost var t := Model();
        PlaceAgrees(s, ps, a, k);
        slots[ds[k].index] := slots[ds[k].index].(address := ds[k].address, pool := Some(Opportunistic));
        assert slots[..] == t.slots[ds[k].index := slots[ds[k].index]];
      }
      allocation := Plus(allocation, Opportunistic, |ds|);
      PlaceHolds(s, ps, a, |ds|);
    }

    // Frees unassigned opportunistic chunks until `want` are gone or none is left.
    method Reclaim(want: int) returns (reclaimed: nat)
      modifies this, slots
      ensures (Model(), reclaimed) == ReclaimBelow(old(Model()), want, slots.Length)
    {
      hide ReclaimBelow, IsReclaimable;
      ghost var s := Model();
      reclaimed := 0;
      ReclaimNone(s, want);
      var index := 0;
      while index < slots.Length && reclaimed < want
        invariant index <= slots.Length && (Model(), reclaimed) == ReclaimBelow(s, want, index)
      {
        ReclaimNext(s, want, index);
        ghost var t := Model();
        if IsReclaimable(slots[index]) {
          live := live - {slots[index].address};
          slots[index] := EMPTY;
          allocation := Plus(allocation, Opportunistic, -1);
          reclaimed := reclaimed + 1;
          assert slots[..] == t.slots[index := EMPTY];
        }
        index := index + 1;
      }
      ReclaimEnough(s, want, index);
    }

    method Reconcile(a: Adapters) returns (result: Result, change: Change)
      requires Valid() && AnswersNew(Model(), a)
      modifies this, slots
      ensures Valid() && (Model(), result, change) == MemoryState.Reconcile(old(Model()), a)
    {
      hide Inv, Grow, ReclaimBelow, AnswersNew;
      ReconcileKeeps(Model(), a);
      change := NO_CHANGE;
      if a.reading.None? { return AccountingFailed, change; }
      var effective := a.reading.value / GIB + allocation.opportunistic;
      var target;
      if effective <= config.reserve {
        target := 0;
      } else if effective - config.reserve >= config.maximum.opportunistic {
        target := config.maximum.opportunistic;
      } else {
        target := effective - config.reserve;
      }
      if target > allocation.opportunistic {
        var growth := target - allocation.opportunistic;
        result := GrowBy(growth, a);
        if result == Ok { change := Change(growth, 0, 0); }
        return;
      }
      var wanted, needed := target, 0;
      if wanted < granted.opportunistic { wanted := granted.opportunistic; }
      if granted.opportunistic > target { needed := granted.opportunistic - target; }
      var reclaimed := Reclaim(allocation.opportunistic - wanted);
      return Ok, Change(0, reclaimed, needed);
    }

    // ------------------------------------------------------------------- status

    method CountQuarantined() returns (count: nat)
      ensures count == |Quarantined(slots[..], Opportunistic)|
    {
      count := 0;
      assert Quarantined(slots[..0], Opportunistic) == {};
      for index := 0 to slots.Length
        invariant count == |Quarantined(slots[..index], Opportunistic)|
      {
        QuarantinedNext(slots[..], index);
        assert slots[..][..index] == slots[..index] && slots[..][..index + 1] == slots[..index + 1];
        if slots[index].quarantined && slots[index].pool == Some(Opportunistic) { count := count + 1; }
      }
      assert slots[..slots.Length] == slots[..];
    }

    // The availability of both pools, to anyone or to the consumer of one connection.
    method Availability(c: Option<nat>, bytes: nat) returns (available: Counts)
      requires c.Some? ==> c.value < |connections|
      ensures forall p :: Of(available, p) == Available(Model(), c, p, bytes)
    {
      hide Quarantined, ConsumerTotal;
      var chunks := bytes / GIB;
      var safe := if chunks > config.reserve then chunks - config.reserve else 0;
      var out := CountQuarantined();
      var unassigned := allocation.opportunistic - granted.opportunistic - out;
      var room := config.maximum.opportunistic - allocation.opportunistic;
      var committedRoom := config.maximum.committed - allocation.committed;
      var opportunistic := unassigned + (if safe < room then safe else room);
      var committed := unassigned + safe;
      if committed > committedRoom { committed := committedRoom; }
      if c.Some? {
        var connection := connections[c.value];
        var use := ConsumerUse(connection.consumer);
        assert Of(use, Opportunistic) == ConsumerTotal(connections, connection.consumer, Opportunistic);
        assert Of(use, Committed) == ConsumerTotal(connections, connection.consumer, Committed);
        opportunistic := Least(opportunistic, connection.limits.chunks.opportunistic - use.opportunistic);
        committed := Least(committed, connection.limits.chunks.committed - use.committed);
      }
      available := Counts(opportunistic, committed);
    }

    // Reports what the table says, and what may still be acquired.
    method GetStatus(owner: nat, reading: Option<nat>) returns (result: Result, report: Report)
      requires Valid()
      ensures owner != 0 && FindConnection(connections, owner, 0).None? ==> result == NotConnected
      ensures owner == 0 || FindConnection(connections, owner, 0).Some? ==>
        result == if reading.None? then AccountingFailed else Ok
      ensures result != Ok ==> report == EMPTY_REPORT
      ensures result == Ok && reading.Some? ==>
        var c := if owner == 0 then None else FindConnection(connections, owner, 0);
        Reports(Model(), report, c, reading.value)
    {
      hide Inv, Available, ConsumerTotal, ConnectionsOf, PoolSet, OwnedSet, QuarantineSet;
      report := EMPTY_REPORT;
      var found := None;
      if owner != 0 {
        found := FindOwner(owner);
        if found.None? { return NotConnected, report; }
      }
      if reading.None? { return AccountingFailed, report; }
      var available := Availability(found, reading.value);
      report := Report(config.reserve, config.maximum, allocation, granted, quarantined, available, |connections|, healthy,
                       0, Counts(0, 0));
      if found.Some? {
        var consumer := connections[found.value].consumer;
        var count := CountConnections(consumer);
        var use := ConsumerUse(consumer);
        report := report.(consumerConnections := count, consumerGranted := use);
      }
      AccountsMean(Model());
      result := Ok;
    }

    // Deregisters everything that can be; slots that cannot be deregistered stay as they are.
    method DeregisterAll(a: Adapters) returns (all: bool)
      requires Valid()
      modifies `registered, slots
      ensures forall i :: 0 <= i < slots.Length ==> slots[i] == Given(old(slots[i]), a.stuck(i))
      ensures all == forall i :: 0 <= i < slots.Length && old(slots[i].registration) != 0 ==> !a.stuck(i)
      ensures registered <= old(registered)
      ensures forall i :: 0 <= i < slots.Length && old(slots[i].registration) != 0 ==>
        (old(slots[i].registration) in registered <==> a.stuck(i))
    {
      hide Inv, GivenBack;
      ghost var s := Model();
      all := true;
      NoneGiven(s.slots, a);
      for index := 0 to slots.Length
        invariant forall i :: 0 <= i < slots.Length ==> slots[i] == if i < index then Given(s.slots[i], a.stuck(i)) else s.slots[i]
        invariant registered == s.registered - GivenBack(s.slots, a, index)
        invariant all <==> forall i :: 0 <= i < index && s.slots[i].registration != 0 ==> !a.stuck(i)
      {
        GivenNext(s.slots, a, index);
        if slots[index].registration != 0 && a.stuck(index) {
          all := false;
        } else {
          if slots[index].registration != 0 { registered := registered - {slots[index].registration}; }
          slots[index] := slots[index].(registration := 0, owner := 0);
        }
      }
      forall i | 0 <= i < slots.Length && s.slots[i].registration != 0
        ensures s.slots[i].registration in registered <==> a.stuck(i)
      {
        GivenExactly(s, a, i);
      }
    }

    // Gives everything back. When a deregistration fails the manager stays, unhealthy: what could be deregistered has lost
    // its owner, while the counters and the memory stay as they were.
    method Destroy(a: Adapters) returns (destroyed: bool)
      requires Valid()
      modifies `registered, `live, `healthy, slots
      ensures destroyed == forall i :: 0 <= i < slots.Length && old(slots[i].registration) != 0 ==> !a.stuck(i)
      ensures destroyed ==> live == {} && registered == {}
      ensures registered <= old(registered)
      ensures !destroyed ==> !healthy && live == old(live)
      ensures forall i :: 0 <= i < slots.Length ==> slots[i] == Given(old(slots[i]), a.stuck(i))
      ensures forall i :: 0 <= i < slots.Length && old(slots[i].registration) != 0 ==>
        (old(slots[i].registration) in registered <==> a.stuck(i))
    {
      hide CountsOk, OwnersOk, PoolsBounded, QuotasOk, SlotsOk;
      ghost var s := Model();
      destroyed := DeregisterAll(a);
      if !destroyed {
        healthy := false;
        return;
      }
      NoRegistrations(s.slots, registered);
      for index := 0 to slots.Length
        modifies `live
        invariant live <= s.live
        invariant forall i :: 0 <= i < index && s.slots[i].address != 0 ==> s.slots[i].address !in live
      {
        if slots[index].address != 0 { live := live - {slots[index].address}; }
      }
      NoAddresses(s.slots, live);
    }
  }

  // The registrations of the first n slots that could be undone.
  ghost function GivenBack(slots: seq<Slot>, a: Adapters, n: nat): set<nat>
    requires n <= |slots|
  {
    set i | 0 <= i < n && slots[i].registration != 0 && !a.stuck(i) :: slots[i].registration
  }

  lemma NoneGiven(slots: seq<Slot>, a: Adapters)
    ensures GivenBack(slots, a, 0) == {}
  {}

  lemma GivenNext(slots: seq<Slot>, a: Adapters, n: nat)
    requires n < |slots|
    ensures GivenBack(slots, a, n + 1) ==
      GivenBack(slots, a, n) + if slots[n].registration != 0 && !a.stuck(n) then {slots[n].registration} else {}
  {
    var before, after := GivenBack(slots, a, n), GivenBack(slots, a, n + 1);
    forall x | x in before ensures x in after {
      var i :| 0 <= i < n && slots[i].registration == x && x != 0 && !a.stuck(i);
    }
  }

  // Registrations differ from slot to slot, so one is given back exactly when its own slot is not stuck.
  lemma GivenExactly(s: State, a: Adapters, i: nat)
    requires Inv(s) && i < |s.slots| && s.slots[i].registration != 0
    ensures s.slots[i].registration in s.registered - GivenBack(s.slots, a, |s.slots|) <==> a.stuck(i)
  {
    hide CountsOk, OwnersOk, PoolsBounded, QuotasOk, SlotsOk;
    HeldSlot(s, i);
    var given := GivenBack(s.slots, a, |s.slots|);
    if s.slots[i].registration in given {
      var j :| 0 <= j < |s.slots| && s.slots[j].registration == s.slots[i].registration && !a.stuck(j);
      assert j == i;
    }
  }

  function Given(slot: Slot, stuck: bool): Slot {
    if slot.registration != 0 && stuck then slot else slot.(registration := 0, owner := 0)
  }

  datatype Report = Report(
    reserve: nat, maximum: Counts, allocation: Counts, granted: Counts, quarantined: int, available: Counts,
    connections: nat, healthy: bool, consumerConnections: nat, consumerGranted: Counts)

  const EMPTY_REPORT := Report(0, Counts(0, 0), Counts(0, 0), Counts(0, 0), 0, Counts(0, 0), 0, false, 0, Counts(0, 0))

  // A report is right when its figures are those of the table and its availability is what decides admission.
  ghost predicate Reports(s: State, r: Report, c: Option<nat>, bytes: nat)
    requires c.Some? ==> c.value < |s.connections|
  {
    && r.reserve == s.config.reserve && r.maximum == s.config.maximum && r.connections == |s.connections| && r.healthy == s.healthy
    && (forall p :: Of(r.allocation, p) == |PoolSet(s.slots, p)| && Of(r.granted, p) == |OwnedSet(s.slots, p)|)
    && r.quarantined == |QuarantineSet(s.slots)|
    && (forall p :: Of(r.available, p) == Available(s, c, p, bytes))
    && (c.None? ==> r.consumerConnections == 0 && r.consumerGranted == Counts(0, 0))
    && (c.Some? ==>
          var consumer := s.connections[c.value].consumer;
          && r.consumerConnections == ConnectionsOf(s.connections, consumer)
          && forall p :: Of(r.consumerGranted, p) == ConsumerTotal(s.connections, consumer, p))
  }

  lemma AccountsMean(s: State)
    requires Inv(s)
    ensures forall p :: Of(s.allocation, p) == |PoolSet(s.slots, p)| && Of(s.granted, p) == |OwnedSet(s.slots, p)|
    ensures s.quarantined == |QuarantineSet(s.slots)|
  {}

  lemma QuarantinedNext(slots: seq<Slot>, n: nat)
    requires n < |slots|
    ensures |Quarantined(slots[..n + 1], Opportunistic)| ==
      |Quarantined(slots[..n], Opportunistic)| + One(slots[n].quarantined && slots[n].pool == Some(Opportunistic))
  {
    var before, after := Quarantined(slots[..n], Opportunistic), Quarantined(slots[..n + 1], Opportunistic);
    if slots[n].quarantined && slots[n].pool == Some(Opportunistic) {
      assert after == before + {n};
    } else {
      assert after == before;
    }
  }

  lemma GrowMeans(s: State, n: nat, a: Adapters)
    ensures var ps := Tagged(EmptyBelow(s.slots, n, |s.slots|), Fresh);
      Grow(s, n, a) ==
        if n == 0 then (s, Ok)
        else if !a.scratch then (s, AllocationFailed)
        else if |ps| != n then (s, PoolExhausted)
        else if AllocationStop(ps, a, 0) < |ps| then
          (s, if a.allocate(AllocationStop(ps, a, 0)).Refused? then AllocationFailed else TouchFailed)
        else (PlaceFirst(s, ps, a, |ps|), Ok)
  {
    hide EmptyBelow, PlaceFirst, AllocationStop;
  }

  lemma ChosenEmpty(slots: seq<Slot>, n: nat, ds: seq<Draft>)
    requires PendingOf(ds) == PendingOf([]) + Tagged(EmptyBelow(slots, n, |slots|), Fresh)
    ensures PendingOf(ds) == Tagged(EmptyBelow(slots, n, |slots|), Fresh)
    ensures forall k :: 0 <= k < |ds| ==> ds[k].origin.Fresh?
  {
    hide EmptyBelow;
    assert PendingOf(ds) == Tagged(EmptyBelow(slots, n, |slots|), Fresh);
    forall k | 0 <= k < |ds| ensures ds[k].origin.Fresh? { assert PendingOf(ds)[k].origin.Fresh?; }
  }

  lemma NoRegistrations(slots: seq<Slot>, registered: set<nat>)
    requires registered <= Registrations(slots)
    requires forall i :: 0 <= i < |slots| && slots[i].registration != 0 ==> slots[i].registration !in registered
    ensures registered == {}
  {
    forall x ensures x !in registered {
      if x in Registrations(slots) { var i :| 0 <= i < |slots| && slots[i].registration == x != 0; }
    }
  }

  lemma NoAddresses(slots: seq<Slot>, live: set<nat>)
    requires live <= Addresses(slots)
    requires forall i :: 0 <= i < |slots| && slots[i].address != 0 ==> slots[i].address !in live
    ensures live == {}
  {
    forall x ensures x !in live {
      if x in Addresses(slots) { var i :| 0 <= i < |slots| && slots[i].address == x != 0; }
    }
  }

  lemma NothingHeld(ds: seq<Draft>, a: Adapters, base: set<nat>, got: set<nat>)
    requires Gotten(ds, a, base, got) && forall i :: 0 <= i < |ds| ==> ds[i].registration == 0
    ensures AddressesAt(a, Holding(ds, got, |ds|)) == {}
  {
    assert Holding(ds, got, |ds|) == {};
  }

  lemma PlacesNone(s: State, ps: seq<Pending>, a: Adapters)
    requires forall i :: 0 <= i < |ps| ==> ps[i].index < |s.slots|
    ensures PlaceFirst(s, ps, a, 0) == s
  {}

  lemma PlaceAgrees(s: State, ps: seq<Pending>, a: Adapters, k: nat)
    requires k < |ps| && forall i :: 0 <= i < |ps| ==> ps[i].index < |s.slots| && ps[i].origin.Fresh?
    requires a.allocate(k).Usable?
    ensures var t := PlaceFirst(s, ps, a, k);
      PlaceFirst(s, ps, a, k + 1) ==
        t.(slots := t.slots[ps[k].index := t.slots[ps[k].index].(address := a.allocate(k).address, pool := Some(Opportunistic))],
           allocation := Plus(t.allocation, Opportunistic, 1), live := t.live + {a.allocate(k).address})
  {}

  lemma {:induction false} PlaceHolds(s: State, ps: seq<Pending>, a: Adapters, k: nat)
    requires k <= |ps| && forall i :: 0 <= i < |ps| ==> ps[i].index < |s.slots| && ps[i].origin.Fresh? && a.allocate(i).Usable?
    ensures var t := PlaceFirst(s, ps, a, k);
      t.allocation == Plus(s.allocation, Opportunistic, k) && t.live == s.live + AddressesAt(a, FreshBelow(ps, k))
  {
    hide AddressesAt, PlaceFirst;
    if k == 0 {
      assert FreshBelow(ps, 0) == {};
      NoImage(a);
      PlacesNone(s, ps, a);
    } else {
      PlaceHolds(s, ps, a, k - 1);
      PlaceAgrees(s, ps, a, k - 1);
      FreshNext(ps, a, k - 1);
    }
  }

  lemma ReclaimNone(s: State, want: int)
    ensures ReclaimBelow(s, want, 0) == (s, 0)
  {}

  lemma ReclaimNext(s: State, want: int, i: nat)
    requires i < |s.slots|
    ensures var (t, k) := ReclaimBelow(s, want, i);
      ReclaimBelow(s, want, i + 1) ==
        if k < want && IsReclaimable(t.slots[i]) then
          (t.(slots := t.slots[i := EMPTY], allocation := Plus(t.allocation, Opportunistic, -1),
              live := t.live - {t.slots[i].address}), k + 1)
        else (t, k)
  {
    hide IsReclaimable;
  }

  lemma {:induction false} ReclaimEnough(s: State, want: int, i: nat)
    requires i <= |s.slots| && (i == |s.slots| || ReclaimBelow(s, want, i).1 >= want)
    ensures ReclaimBelow(s, want, |s.slots|) == ReclaimBelow(s, want, i)
    decreases |s.slots| - i
  {
    hide IsReclaimable;
    if i < |s.slots| { ReclaimEnough(s, want, i + 1); }
  }

  lemma SelectedApart(s: State, c: nat, p: Pool, n: nat, reading: Option<nat>, ds: seq<Draft>)
    requires c < |s.connections| && n > 0 && Admit(s, c, p, n, reading) == Ok && PendingOf(ds) == Selection(s.slots, p, n)
    ensures ds != [] && forall i, j :: 0 <= i < j < |ds| ==> ds[i].index != ds[j].index
  {
    hide Selection, Admit, Suits;
    AdmitMeans(s, c, p, n, reading);
    SelectionSuitable(s, p, n);
    var ps := PendingOf(ds);
    forall i, j | 0 <= i < j < |ds| ensures ds[i].index != ds[j].index { assert ps[i].index != ps[j].index; }
  }

  // New positions below k for which the allocator gave an address.
  ghost function GotBelow(ps: seq<Pending>, a: Adapters, k: nat): set<nat> {
    set i: nat | i < k && i < |ps| && ps[i].origin.Fresh? && !a.allocate(i).Refused?
  }

  lemma NoHandles(a: Adapters)
    ensures HandlesAt(a, Below(0)) == {}
  {}

  lemma UnusedNonzero(s: State, a: Adapters)
    requires Unused(s, a, 0)
    ensures forall k: nat :: !a.allocate(k).Refused? ==> a.allocate(k).address != 0
  {}

  lemma GotImage(ps: seq<Pending>, a: Adapters, k: nat)
    ensures AddressesAt(a, FreshBelow(ps, k)) == AddressesAt(a, GotBelow(ps, a, k))
  {
    forall x | x in AddressesAt(a, FreshBelow(ps, k)) ensures x in AddressesAt(a, GotBelow(ps, a, k)) {
      var i :| i in FreshBelow(ps, k) && !a.allocate(i).Refused? && a.allocate(i).address == x;
      assert i in GotBelow(ps, a, k);
    }
    forall x | x in AddressesAt(a, GotBelow(ps, a, k)) ensures x in AddressesAt(a, FreshBelow(ps, k)) {
      var i :| i in GotBelow(ps, a, k) && a.allocate(i).address == x;
      assert i in FreshBelow(ps, k);
    }
  }

  lemma AllocationStaged(s: State, chosen: seq<Draft>, ds: seq<Draft>, a: Adapters, k: nat)
    requires Blank(s.slots, chosen) && Obtained(chosen, ds, a, k) && Unused(s, a, 0)
    ensures PendingOf(ds) == PendingOf(chosen) && Staged(s, ds, a, 0)
    ensures Gotten(ds, a, s.live, GotBelow(PendingOf(chosen), a, k))
    ensures AddressesAt(a, FreshBelow(PendingOf(chosen), k)) == AddressesAt(a, GotBelow(PendingOf(chosen), a, k))
    ensures forall i :: 0 <= i < |ds| ==> ds[i].registration == 0
  {
    hide AddressesAt, HandlesAt;
    GotImage(PendingOf(chosen), a, k);
  }

  // Non-new drafts carry the table's address, and no two drafts share a slot.
  ghost predicate Separate(s: State, ds: seq<Draft>) {
    && (forall i, j :: 0 <= i < j < |ds| ==> ds[i].index != ds[j].index)
    && forall k :: 0 <= k < |ds| && !ds[k].origin.Fresh? ==>
         ds[k].index < |s.slots| && ds[k].address == s.slots[ds[k].index].address
  }

  lemma RegistrationStaged(s: State, chosen: seq<Draft>, ds: seq<Draft>, es: seq<Draft>, a: Adapters, last: nat)
    requires Blank(s.slots, chosen) && Obtained(chosen, ds, a, |ds|) && Unused(s, a, 0) && |es| == |ds|
    requires forall i, j :: 0 <= i < j < |chosen| ==> chosen[i].index != chosen[j].index
    requires AllocationStop(PendingOf(chosen), a, 0) == |chosen| && last == RegistrationStop(|ds|, a, 0)
    requires forall k :: 0 <= k < |es| ==> es[k] == ds[k].(registration := if k < last then a.register(k) else 0)
    ensures PendingOf(es) == PendingOf(chosen) && Staged(s, es, a, last) && Separate(s, es)
    ensures Gotten(es, a, s.live, FreshBelow(PendingOf(chosen), |chosen|))
  {
    hide AddressesAt, HandlesAt, AllocationStop, RegistrationStop;
    var ps := PendingOf(chosen);
    forall k | 0 <= k < |ps| && ps[k].origin.Fresh? ensures a.allocate(k).Usable? && a.allocate(k).address != 0 {}
  }

  // The slot as the owner gets it; the counts of grants are brought up to date later.
  function Installed(s: State, d: Draft, owner: nat, p: Pool): State
    requires d.index < |s.slots|
  {
    var slot := s.slots[d.index];
    var moved := if d.origin.Converted? then Plus(s.allocation, Opportunistic, -1) else s.allocation;
    s.(slots := s.slots[d.index :=
         Slot(if d.origin.Fresh? then d.address else slot.address, d.registration, owner, Some(p), slot.quarantined)],
       allocation := if d.origin.SamePool? then moved else Plus(moved, p, 1))
  }

  lemma StagedIndex(s: State, ds: seq<Draft>, a: Adapters, last: nat)
    requires Staged(s, ds, a, last)
    ensures forall k :: 0 <= k < |ds| ==> ds[k].index < |s.slots|
  {}

  lemma InstallsNone(s: State, c: nat, ps: seq<Pending>, p: Pool, a: Adapters)
    requires c < |s.connections| && forall i :: 0 <= i < |ps| ==> ps[i].index < |s.slots|
    ensures InstallFirst(s, c, ps, p, a, 0) == s
  {}

  lemma InstallAgrees(s: State, c: nat, ds: seq<Draft>, p: Pool, a: Adapters, k: nat, held: set<nat>, handles: set<nat>)
    requires c < |s.connections| && Staged(s, ds, a, |ds|) && Separate(s, ds) && k < |ds|
    ensures var ps := PendingOf(ds);
      var t := InstallFirst(s, c, ps, p, a, k);
      var before := t.(granted := s.granted, connections := s.connections, live := held, registered := handles);
      var after := Installed(before, ds[k], s.connections[c].owner, p);
      && after == InstallFirst(s, c, ps, p, a, k + 1).(
                    granted := s.granted, connections := s.connections, live := held, registered := handles)
      && after.slots[ds[k].index].address == AddressAt(s, ps, a, k) && after.slots[ds[k].index].registration == a.register(k)
  {
    hide InstallFirst;
    var ps := PendingOf(ds);
    StagedIndex(s, ds, a, |ds|);
    InstallLeaves(s, c, ps, p, a, k, ds[k].index);
    InstallCounts(s, c, ps, p, a, k);
    InstallNext(s, c, ps, p, a, k);
  }

  lemma InstallNext(s: State, c: nat, ps: seq<Pending>, p: Pool, a: Adapters, k: nat)
    requires c < |s.connections| && k < |ps| && forall i :: 0 <= i < |ps| ==> ps[i].index < |s.slots|
    ensures InstallFirst(s, c, ps, p, a, k + 1) == InstallOne(InstallFirst(s, c, ps, p, a, k), c, ps, p, a, k)
  {
    hide InstallOne;
  }

  lemma InstallStaged(s: State, c: nat, ds: seq<Draft>, p: Pool, a: Adapters)
    requires c < |s.connections| && Staged(s, ds, a, |ds|) && ds != []
    ensures var ps := PendingOf(ds);
      var t := InstallFirst(s, c, ps, p, a, |ds|);
      t.live == s.live + AddressesAt(a, FreshBelow(ps, |ds|)) && t.registered == s.registered + HandlesAt(a, Below(|ds|))
  {
    hide InstallFirst, AddressesAt, HandlesAt;
    InstallHolds(s, c, PendingOf(ds), p, a, |ds|);
  }

  // Drafts of which the first `last` are registered; once any is, all the new ones are allocated.
  ghost predicate Staged(s: State, ds: seq<Draft>, a: Adapters, last: nat) {
    && (forall k :: 0 <= k < |ds| ==>
          && ds[k].index < |s.slots| && ds[k].registration == (if k < last then a.register(k) else 0)
          && (ds[k].origin.Fresh? && last > 0 ==> a.allocate(k).Usable? && ds[k].address == a.allocate(k).address))
    && (forall k :: 0 <= k < last ==> a.register(k) != 0)
  }

  function Early(i: nat, last: nat): nat { if i < last then i else last }

  // Positions still registered once the rollback has passed those below i.
  ghost function Kept(a: Adapters, i: nat, last: nat): set<nat> { set k: nat | k < last && (k >= i || a.stuck(k)) }

  function Sequestered(s: State, d: Draft, p: Pool): State
    requires d.index < |s.slots|
  {
    var slot := s.slots[d.index];
    var slot' := if d.origin.Fresh? then slot.(address := d.address, pool := Some(p)) else slot;
    s.(slots := s.slots[d.index := slot'.(registration := d.registration, quarantined := true)],
       allocation := if d.origin.Fresh? then Plus(s.allocation, p, 1) else s.allocation, quarantined := s.quarantined + 1)
  }

  lemma QuarantineAgrees(t: State, ps: seq<Pending>, p: Pool, a: Adapters, k: nat, d: Draft, live: set<nat>, registered: set<nat>)
    requires k < |ps| && ps[k].index < |t.slots|
    requires d.index == ps[k].index && d.origin == ps[k].origin && d.registration == a.register(k)
    requires d.origin.Fresh? ==> a.allocate(k).Usable? && d.address == a.allocate(k).address
    ensures Sequestered(t.(live := live, registered := registered), d, p) ==
      QuarantineOne(t, ps, p, a, k).(live := live, registered := registered)
  {}

  lemma UndoStarts(s: State, ps: seq<Pending>, p: Pool, a: Adapters, last: nat)
    requires last <= |ps| && forall i :: 0 <= i < |ps| ==> ps[i].index < |s.slots|
    ensures Kept(a, 0, last) == Below(last) && QuarantineFirst(s, ps, p, a, 0) == s && !SomeStuck(a, 0)
  {}

  lemma UndoNext(s: State, ps: seq<Pending>, p: Pool, a: Adapters, i: nat, last: nat)
    requires i < |ps| && last <= |ps| && Distinct(a) && Unused(s, a, 0) && forall k :: 0 <= k < |ps| ==> ps[k].index < |s.slots|
    requires forall k :: 0 <= k < last ==> a.register(k) != 0
    ensures i >= last ==> Kept(a, i + 1, last) == Kept(a, i, last)
    ensures i < last && a.stuck(i) ==>
      && Kept(a, i + 1, last) == Kept(a, i, last) && SomeStuck(a, i + 1)
      && QuarantineFirst(s, ps, p, a, i + 1) == QuarantineOne(QuarantineFirst(s, ps, p, a, i), ps, p, a, i)
    ensures i < last && !a.stuck(i) ==>
      && s.registered + HandlesAt(a, Kept(a, i, last)) - {a.register(i)} == s.registered + HandlesAt(a, Kept(a, i + 1, last))
      && SomeStuck(a, i + 1) == SomeStuck(a, i)
      && QuarantineFirst(s, ps, p, a, i + 1) == QuarantineFirst(s, ps, p, a, i)
  {
    hide HandlesAt, Distinct;
    if i < last && !a.stuck(i) {
      assert Kept(a, i + 1, last) == Kept(a, i, last) - {i};
      HandleGone(a, s.registered, Kept(a, i, last), i);
    }
  }

  lemma UndoEnds(s: State, ps: seq<Pending>, p: Pool, a: Adapters, n: nat, last: nat)
    requires last <= n == |ps| && forall k :: 0 <= k < |ps| ==> ps[k].index < |s.slots|
    requires last > 0 ==> forall k :: 0 <= k < |ps| && ps[k].origin.Fresh? ==> a.allocate(k).Usable?
    ensures s.registered + HandlesAt(a, Kept(a, n, last)) == QuarantineFirst(s, ps, p, a, last).registered
  {
    hide HandlesAt, AddressesAt;
    assert Kept(a, n, last) == StuckBelow(a, last);
    if last > 0 {
      QuarantineHolds(s, ps, p, a, last);
    } else {
      assert StuckBelow(a, 0) == {};
      NoImage(a);
    }
  }

  // The positions in `got` are new drafts holding allocated addresses that were not live before.
  ghost predicate Gotten(ds: seq<Draft>, a: Adapters, base: set<nat>, got: set<nat>) {
    && (forall k :: k in got ==> k < |ds| && !a.allocate(k).Refused? && a.allocate(k).address !in base)
    && (forall k :: 0 <= k < |ds| && k in got ==>
          ds[k].origin.Fresh? && ds[k].address == a.allocate(k).address && ds[k].address != 0)
    && (forall k :: 0 <= k < |ds| && ds[k].origin.Fresh? && ds[k].address != 0 ==> k in got)
  }

  // Positions whose memory is still held once the ones below i have been looked at.
  ghost function Holding(ds: seq<Draft>, got: set<nat>, i: nat): set<nat> {
    set k | k in got && (k >= i || (k < |ds| && ds[k].registration != 0))
  }

  lemma RolledBack(s: State, before: seq<Draft>, ds: seq<Draft>, p: Pool, a: Adapters, last: nat, got: set<nat>)
    requires last <= |before| == |ds| && Staged(s, before, a, last)
    requires forall k :: 0 <= k < |ds| ==>
      ds[k] == before[k].(registration := if k < last && a.stuck(k) then a.register(k) else 0)
    requires Gotten(before, a, s.live, got) && (last > 0 ==> got == FreshBelow(PendingOf(before), |before|))
    ensures s.live + AddressesAt(a, Holding(ds, got, |ds|)) == QuarantineFirst(s, PendingOf(before), p, a, last).live
  {
    hide AddressesAt, HandlesAt;
    var ps := PendingOf(before);
    if last > 0 {
      QuarantineHolds(s, ps, p, a, last);
      assert Holding(ds, got, |ds|) == StuckBelow(a, last) * FreshBelow(ps, last);
    } else {
      assert Holding(ds, got, |ds|) == {};
      NoImage(a);
    }
  }

  // Drafts that hold no registration yet, and an address only where the table has one.
  predicate Blank(slots: seq<Slot>, ds: seq<Draft>) {
    forall k :: 0 <= k < |ds| ==>
      && ds[k].index < |slots| && ds[k].registration == 0
      && ds[k].address == if ds[k].origin.Fresh? then 0 else slots[ds[k].index].address
  }

  // The new drafts below k hold the allocator's answers.
  ghost predicate Obtained(before: seq<Draft>, ds: seq<Draft>, a: Adapters, k: nat) {
    && |ds| == |before|
    && forall i :: 0 <= i < |ds| ==>
         ds[i] == if i < k && before[i].origin.Fresh? && !a.allocate(i).Refused?
                  then before[i].(address := a.allocate(i).address) else before[i]
  }

  lemma NothingObtained(before: seq<Draft>, a: Adapters)
    ensures Obtained(before, before, a, 0) && AddressesAt(a, FreshBelow(PendingOf(before), 0)) == {}
  {
    NoImage(a);
    assert FreshBelow(PendingOf(before), 0) == {};
  }

  // What one more answer does to the drafts, and whether the allocation stops there.
  lemma ObtainNext(before: seq<Draft>, ds: seq<Draft>, a: Adapters, k: nat)
    requires k < |before| && Obtained(before, ds, a, k)
    ensures k < |ds| && ds[k] == before[k]
    ensures var answered := before[k].origin.Fresh? && !a.allocate(k).Refused?;
      var next := if answered then ds[k := ds[k].(address := a.allocate(k).address)] else ds;
      Obtained(before, next, a, k + 1) && PendingOf(next) == PendingOf(ds)
    ensures var ps := PendingOf(before);
      AllocationStop(ps, a, k) == if before[k].origin.Fresh? && !a.allocate(k).Usable? then k else AllocationStop(ps, a, k + 1)
  {}

  lemma FreshNext(ps: seq<Pending>, a: Adapters, k: nat)
    requires k < |ps|
    ensures AddressesAt(a, FreshBelow(ps, k + 1)) == AddressesAt(a, FreshBelow(ps, k))
      + if ps[k].origin.Fresh? && !a.allocate(k).Refused? then {a.allocate(k).address} else {}
  {
    hide AddressesAt;
    assert FreshBelow(ps, k + 1) == if ps[k].origin.Fresh? then FreshBelow(ps, k) + {k} else FreshBelow(ps, k);
    AddressCome(a, FreshBelow(ps, k), k);
  }

  lemma NoDrafts(slots: seq<Slot>)
    ensures Blank(slots, [])
  {}

  lemma OneMore(slots: seq<Slot>, ds: seq<Draft>, d: Draft)
    requires Blank(slots, ds) && d.index < |slots| && d.registration == 0 && !d.origin.Fresh? && d.address == slots[d.index].address
    ensures Blank(slots, ds + [d]) && PendingOf(ds + [d]) == PendingOf(ds) + [Pending(d.index, d.origin)]
  {}

  // What a request for n holds after looking at the first i slots for free chunks of a pool.
  function Taken(slots: seq<Slot>, p: Pool, origin: Origin, before: seq<Pending>, n: nat, i: nat): seq<Pending>
    requires |before| <= n && i <= |slots|
  {
    before + Tagged(FreeBelow(slots, p, n - |before|, i), origin)
  }

  lemma TakenNone(slots: seq<Slot>, p: Pool, origin: Origin, before: seq<Pending>, n: nat)
    requires |before| <= n
    ensures Taken(slots, p, origin, before, n, 0) == before
  {}

  lemma TakenNext(slots: seq<Slot>, p: Pool, origin: Origin, before: seq<Pending>, n: nat, i: nat)
    requires |before| <= n && i < |slots|
    ensures var r := Taken(slots, p, origin, before, n, i);
      Taken(slots, p, origin, before, n, i + 1) == if |r| < n && IsFree(slots[i], p) then r + [Pending(i, origin)] else r
  {
    hide IsFree;
  }

  lemma TakenEnough(slots: seq<Slot>, p: Pool, origin: Origin, before: seq<Pending>, n: nat, i: nat)
    requires |before| <= n && i <= |slots| && (i == |slots| || |Taken(slots, p, origin, before, n, i)| == n)
    ensures Taken(slots, p, origin, before, n, |slots|) == Taken(slots, p, origin, before, n, i)
  {
    hide IsFree, FreeBelow;
    FreeEnough(slots, p, n - |before|, i);
  }

  // What a request for n holds after looking at the first i slots for empty ones.
  function Filled(slots: seq<Slot>, before: seq<Pending>, n: nat, i: nat): seq<Pending>
    requires |before| <= n && i <= |slots|
  {
    before + Tagged(EmptyBelow(slots, n - |before|, i), Fresh)
  }

  lemma FilledNone(slots: seq<Slot>, before: seq<Pending>, n: nat)
    requires |before| <= n
    ensures Filled(slots, before, n, 0) == before
  {}

  lemma FilledNext(slots: seq<Slot>, before: seq<Pending>, n: nat, i: nat)
    requires |before| <= n && i < |slots|
    ensures var r := Filled(slots, before, n, i);
      Filled(slots, before, n, i + 1) == if |r| < n && slots[i].address == 0 then r + [Pending(i, Fresh)] else r
  {}

  lemma FilledEnough(slots: seq<Slot>, before: seq<Pending>, n: nat, i: nat)
    requires |before| <= n && i <= |slots| && (i == |slots| || |Filled(slots, before, n, i)| == n)
    ensures Filled(slots, before, n, |slots|) == Filled(slots, before, n, i)
  {
    hide EmptyBelow;
    EmptyEnough(slots, n - |before|, i);
  }

  // No draft names an empty slot from i on.
  ghost predicate Untaken(slots: seq<Slot>, ds: seq<Draft>, i: nat) {
    forall k :: 0 <= k < |ds| ==> ds[k].index < |slots| && (slots[ds[k].index].address != 0 || ds[k].index < i)
  }

  lemma UntakenNext(slots: seq<Slot>, ds: seq<Draft>, i: nat)
    requires i < |slots| && Untaken(slots, ds, i) && Blank(slots, ds)
    ensures Untaken(slots, ds, i + 1)
    ensures slots[i].address == 0 ==> forall k :: 0 <= k < |ds| ==> ds[k].index != i
    ensures var more := ds + [Draft(i, Fresh, 0, 0)];
      Untaken(slots, more, i + 1) && Blank(slots, more) && PendingOf(more) == PendingOf(ds) + [Pending(i, Fresh)]
  {}

  lemma TakenHaveMemory(slots: seq<Slot>, p: Pool, ds: seq<Draft>, same: seq<nat>, converted: seq<nat>)
    requires PendingOf(ds) == Tagged(same, SamePool) + Tagged(converted, Converted)
    requires forall k :: 0 <= k < |same| ==> same[k] < |slots| && IsFree(slots[same[k]], p)
    requires forall k :: 0 <= k < |converted| ==> converted[k] < |slots| && IsFree(slots[converted[k]], Opportunistic)
    ensures Untaken(slots, ds, 0)
  {}

  lemma PartCounts(same: seq<nat>, converted: seq<nat>, created: seq<nat>)
    ensures var ps := Tagged(same, SamePool) + Tagged(converted, Converted) + Tagged(created, Fresh);
      CountOf(ps, SamePool) == |same| && CountOf(ps, Fresh) == |created|
  {
    hide CountOf;
    var a, b, c := Tagged(same, SamePool), Tagged(converted, Converted), Tagged(created, Fresh);
    forall o ensures CountOf(a + b + c, o) == CountOf(a, o) + CountOf(b, o) + CountOf(c, o) {
      CountConcat(a + b, c, o);
      CountConcat(a, b, o);
    }
    forall o ensures CountOf(a, o) == if o == SamePool then |a| else 0 { CountUniform(a, SamePool, o); }
    forall o ensures CountOf(b, o) == if o == Converted then |b| else 0 { CountUniform(b, Converted, o); }
    forall o ensures CountOf(c, o) == if o == Fresh then |c| else 0 { CountUniform(c, Fresh, o); }
  }

  lemma {:induction false} RefusalStays(s: State, owner: nat, ids: seq<nat>, cause: Cause, k: nat)
    requires k <= |ids|
    ensures ReleaseRefusal(s, owner, ids, cause, k) != Ok ==>
      ReleaseRefusal(s, owner, ids, cause, |ids|) == ReleaseRefusal(s, owner, ids, cause, k)
    decreases |ids| - k
  {
    if k < |ids| { RefusalStays(s, owner, ids, cause, k + 1); }
  }

  lemma {:induction false} ReleaseStays(s: State, c: nat, ids: seq<nat>, cause: Cause, a: Adapters, k: nat)
    requires c < |s.connections| && k <= |ids| && forall i :: 0 <= i < |ids| ==> ids[i] < |s.slots|
    requires ReleaseFirst(s, c, ids, cause, a, k).1 != Ok
    ensures ReleaseFirst(s, c, ids, cause, a, |ids|) == ReleaseFirst(s, c, ids, cause, a, k)
    decreases |ids| - k
  {
    hide ReleaseOne;
    if k < |ids| { ReleaseStays(s, c, ids, cause, a, k + 1); }
  }

  lemma {:induction false} GiveUpStays(s: State, c: nat, owner: nat, a: Adapters, k: nat)
    requires c < |s.connections| && k <= |s.slots| && GiveUpBelow(s, c, owner, a, k).1 != Ok
    ensures GiveUpBelow(s, c, owner, a, |s.slots|) == GiveUpBelow(s, c, owner, a, k)
    decreases |s.slots| - k
  {
    hide ReleaseOne;
    if k < |s.slots| { GiveUpStays(s, c, owner, a, k + 1); }
  }
}
