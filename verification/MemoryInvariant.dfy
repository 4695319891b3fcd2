/**
 The invariant of the memory manager and the proof that every call keeps it,
 whatever the adapters answer.
 */
module MemoryInvariant {
  import opened Options
  import opened MemoryState

  // ------------------------------------------------------- sets of table slots

  function PoolSet(slots: seq<Slot>, p: Pool): set<int> { set i | 0 <= i < |slots| && slots[i].pool == Some(p) }
  function OwnedSet(slots: seq<Slot>, p: Pool): set<int> {
    set i | 0 <= i < |slots| && slots[i].owner != 0 && slots[i].pool == Some(p)
  }
  function OwnedBy(slots: seq<Slot>, owner: nat, p: Pool): set<int> {
    set i | 0 <= i < |slots| && slots[i].owner == owner && slots[i].pool == Some(p)
  }
  function QuarantineSet(slots: seq<Slot>): set<int> { set i | 0 <= i < |slots| && slots[i].quarantined }
  function FreeSet(slots: seq<Slot>, p: Pool): set<int> { set i | 0 <= i < |slots| && IsFree(slots[i], p) }
  function EmptySet(slots: seq<Slot>): set<int> { set i | 0 <= i < |slots| && slots[i].address == 0 }

  function Addresses(slots: seq<Slot>): set<nat> {
    set i | 0 <= i < |slots| && slots[i].address != 0 :: slots[i].address
  }
  function Registrations(slots: seq<Slot>): set<nat> {
    set i | 0 <= i < |slots| && slots[i].registration != 0 :: slots[i].registration
  }

  // ----------------------------------------------------------------- invariant

  ghost predicate SlotOk(slot: Slot) {
    && (slot.pool.None? <==> slot.address == 0)
    && (slot.address == 0 ==> slot == EMPTY)
    && (slot.registration != 0 <==> slot.owner != 0 || slot.quarantined)
    && !(slot.owner != 0 && slot.quarantined)
    && (slot.pool == Some(Committed) ==> slot.owner != 0 || slot.quarantined)
  }

  ghost predicate SlotsOk(s: State) {
    forall i :: 0 <= i < |s.slots| ==> SlotOk(s.slots[i])
  }

  ghost predicate CountsOk(s: State) {
    && (forall p :: Of(s.allocation, p) == |PoolSet(s.slots, p)| && Of(s.granted, p) == |OwnedSet(s.slots, p)|)
    && s.quarantined == |QuarantineSet(s.slots)|
    && forall k, p :: 0 <= k < |s.connections| ==>
         Of(s.connections[k].granted, p) == |OwnedBy(s.slots, s.connections[k].owner, p)|
  }

  // What the allocation and registration adapters hold is what the table names, each once.
  ghost predicate HeldOk(s: State) {
    && s.live == Addresses(s.slots) && s.registered == Registrations(s.slots)
    && forall i, j :: 0 <= i < j < |s.slots| ==>
         && (s.slots[i].address != 0 ==> s.slots[i].address != s.slots[j].address)
         && (s.slots[i].registration != 0 ==> s.slots[i].registration != s.slots[j].registration)
  }

  ghost predicate OwnersOk(s: State) {
    && (forall j, k :: 0 <= j < k < |s.connections| ==> s.connections[j].owner != s.connections[k].owner)
    && (forall k :: 0 <= k < |s.connections| ==> s.connections[k].owner != 0)
    && forall i :: 0 <= i < |s.slots| && s.slots[i].owner != 0 ==> Connected(s, s.slots[i].owner)
  }

  ghost predicate Connected(s: State, owner: nat) {
    exists k :: 0 <= k < |s.connections| && s.connections[k].owner == owner
  }

  ghost predicate Core(s: State) {
    SlotsOk(s) && CountsOk(s) && HeldOk(s) && OwnersOk(s)
  }

  ghost predicate PoolsBounded(s: State) {
    && |s.slots| == s.config.maximum.opportunistic + s.config.maximum.committed <= MAX_RUNTIME_CHUNKS
    && forall p :: Of(s.allocation, p) <= Of(s.config.maximum, p)
  }

  // One consumer's connections agree on its limits and stay within them.
  ghost predicate QuotasOk(cs: seq<Connection>) {
    forall k :: 0 <= k < |cs| ==>
      && LimitsAgree(cs, cs[k].consumer, cs[k].limits)
      && ConnectionsOf(cs, cs[k].consumer) <= cs[k].limits.connections
      && forall p :: ConsumerTotal(cs, cs[k].consumer, p) <= Of(cs[k].limits.chunks, p)
  }

  ghost predicate Inv(s: State) {
    Core(s) && PoolsBounded(s) && QuotasOk(s.connections)
  }

  // ------------------------------------------------------- changing one slot

  function One(b: bool): int { if b then 1 else 0 }

  lemma MemberSwap(a: set<int>, b: set<int>, i: int, before: bool, after: bool)
    requires a - {i} == b - {i} && (i in a <==> before) && (i in b <==> after)
    ensures |b| == |a| + One(after) - One(before)
  {
    var c := a - {i};
    assert a == (if before then c + {i} else c);
    assert b == (if after then c + {i} else c);
  }

  lemma PoolSwap(slots: seq<Slot>, i: int, x: Slot, p: Pool)
    requires 0 <= i < |slots|
    ensures var after := slots[i := x];
      && |PoolSet(after, p)| == |PoolSet(slots, p)| + One(x.pool == Some(p)) - One(slots[i].pool == Some(p))
      && |OwnedSet(after, p)| == |OwnedSet(slots, p)| + One(x.owner != 0 && x.pool == Some(p))
                                 - One(slots[i].owner != 0 && slots[i].pool == Some(p))
  {
    var after := slots[i := x];
    MemberSwap(PoolSet(slots, p), PoolSet(after, p), i, slots[i].pool == Some(p), x.pool == Some(p));
    MemberSwap(OwnedSet(slots, p), OwnedSet(after, p), i, slots[i].owner != 0 && slots[i].pool == Some(p),
               x.owner != 0 && x.pool == Some(p));
  }

  lemma OwnerSwap(slots: seq<Slot>, i: int, x: Slot, owner: nat, p: Pool)
    requires 0 <= i < |slots|
    ensures |OwnedBy(slots[i := x], owner, p)| == |OwnedBy(slots, owner, p)| + One(x.owner == owner && x.pool == Some(p))
                                                  - One(slots[i].owner == owner && slots[i].pool == Some(p))
  {
    MemberSwap(OwnedBy(slots, owner, p), OwnedBy(slots[i := x], owner, p), i,
               slots[i].owner == owner && slots[i].pool == Some(p), x.owner == owner && x.pool == Some(p));
  }

  lemma QuarantineSwap(slots: seq<Slot>, i: int, x: Slot)
    requires 0 <= i < |slots|
    ensures |QuarantineSet(slots[i := x])| == |QuarantineSet(slots)| + One(x.quarantined) - One(slots[i].quarantined)
  {
    MemberSwap(QuarantineSet(slots), QuarantineSet(slots[i := x]), i, slots[i].quarantined, x.quarantined);
  }

  function Only(x: nat): set<nat> { if x == 0 then {} else {x} }

  // The pool counters move by what slot i brings and takes.
  ghost predicate PoolMoved(s: State, t: State, x: Slot, y: Slot, p: Pool) {
    && Of(t.allocation, p) == Of(s.allocation, p) + One(y.pool == Some(p)) - One(x.pool == Some(p))
    && Of(t.granted, p) == Of(s.granted, p) + One(y.owner != 0 && y.pool == Some(p)) - One(x.owner != 0 && x.pool == Some(p))
  }

  ghost predicate HolderMoved(c: Connection, d: Connection, x: Slot, y: Slot, p: Pool) {
    Of(d.granted, p) == Of(c.granted, p) + One(y.owner == c.owner && y.pool == Some(p))
                                         - One(x.owner == c.owner && x.pool == Some(p))
  }

  // Slot i changes, and every counter and adapter set moves with it.
  ghost predicate Balanced(s: State, t: State, i: int) {
    && 0 <= i < |s.slots| == |t.slots| && t.slots == s.slots[i := t.slots[i]] && t.config == s.config
    && var (x, y) := (s.slots[i], t.slots[i]);
       && (forall p :: PoolMoved(s, t, x, y, p))
       && t.quarantined == s.quarantined + One(y.quarantined) - One(x.quarantined)
       && |t.connections| == |s.connections|
       && (forall k :: 0 <= k < |s.connections| ==>
             t.connections[k] == s.connections[k].(granted := t.connections[k].granted))
       && (forall k, p :: 0 <= k < |s.connections| ==> HolderMoved(s.connections[k], t.connections[k], x, y, p))
       && t.live == s.live - Only(x.address) + Only(y.address)
       && t.registered == s.registered - Only(x.registration) + Only(y.registration)
       && (y.address != 0 ==> y.address == x.address || y.address !in s.live)
       && (y.registration != 0 ==> y.registration == x.registration || y.registration !in s.registered)
       && SlotOk(y) && (y.owner != 0 ==> Connected(s, y.owner))
  }

  lemma BalancedCounts(s: State, t: State, i: int)
    requires CountsOk(s) && Balanced(s, t, i)
    ensures CountsOk(t)
  {
    hide PoolSet, OwnedSet, OwnedBy, QuarantineSet, SlotOk, Connected;
    forall p ensures Of(t.allocation, p) == |PoolSet(t.slots, p)| && Of(t.granted, p) == |OwnedSet(t.slots, p)| {
      PoolSwap(s.slots, i, t.slots[i], p);
      assert PoolMoved(s, t, s.slots[i], t.slots[i], p);
    }
    forall k, p | 0 <= k < |t.connections|
      ensures Of(t.connections[k].granted, p) == |OwnedBy(t.slots, t.connections[k].owner, p)|
    {
      OwnerSwap(s.slots, i, t.slots[i], s.connections[k].owner, p);
      assert t.connections[k] == s.connections[k].(granted := t.connections[k].granted);
      assert Of(s.connections[k].granted, p) == |OwnedBy(s.slots, s.connections[k].owner, p)|;
      assert HolderMoved(s.connections[k], t.connections[k], s.slots[i], t.slots[i], p);
    }
    QuarantineSwap(s.slots, i, t.slots[i]);
  }

  lemma AddressSwap(slots: seq<Slot>, i: int, x: Slot)
    requires 0 <= i < |slots|
    requires forall j, k :: 0 <= j < k < |slots| && slots[j].address != 0 ==> slots[j].address != slots[k].address
    ensures Addresses(slots[i := x]) == Addresses(slots) - Only(slots[i].address) + Only(x.address)
  {
    var after := slots[i := x];
    forall a | a in Addresses(slots) - Only(slots[i].address) + Only(x.address) ensures a in Addresses(after) {
      if a in Addresses(slots) && a != x.address {
        var k :| 0 <= k < |slots| && slots[k].address == a;
        assert after[k].address == a;
      } else {
        assert after[i].address == a;
      }
    }
  }

  lemma RegistrationSwap(slots: seq<Slot>, i: int, x: Slot)
    requires 0 <= i < |slots|
    requires forall j, k :: 0 <= j < k < |slots| && slots[j].registration != 0 ==> slots[j].registration != slots[k].registration
    ensures Registrations(slots[i := x]) == Registrations(slots) - Only(slots[i].registration) + Only(x.registration)
  {
    var after := slots[i := x];
    forall a | a in Registrations(slots) - Only(slots[i].registration) + Only(x.registration) ensures a in Registrations(after) {
      if a in Registrations(slots) && a != x.registration {
        var k :| 0 <= k < |slots| && slots[k].registration == a;
        assert after[k].registration == a;
      } else {
        assert after[i].registration == a;
      }
    }
  }

  lemma BalancedHeld(s: State, t: State, i: int)
    requires HeldOk(s) && Balanced(s, t, i)
    ensures HeldOk(t)
  {
    hide SlotOk, Connected;
    AddressSwap(s.slots, i, t.slots[i]);
    RegistrationSwap(s.slots, i, t.slots[i]);
    forall j | 0 <= j < |s.slots|
      ensures s.slots[j].address != 0 ==> s.slots[j].address in s.live
      ensures s.slots[j].registration != 0 ==> s.slots[j].registration in s.registered
    {}
  }

  lemma BalancedOwners(s: State, t: State, i: int)
    requires SlotsOk(s) && OwnersOk(s) && Balanced(s, t, i)
    ensures SlotsOk(t) && OwnersOk(t)
  {
    hide SlotOk, Of;
    forall k | 0 <= k < |t.connections| ensures t.connections[k].owner == s.connections[k].owner {
      assert t.connections[k] == s.connections[k].(granted := t.connections[k].granted);
    }
    forall j | 0 <= j < |t.slots| && t.slots[j].owner != 0 ensures Connected(t, t.slots[j].owner) {
      assert Connected(s, t.slots[j].owner);
      var k :| 0 <= k < |s.connections| && s.connections[k].owner == t.slots[j].owner;
      assert t.connections[k].owner == t.slots[j].owner;
    }
  }

  lemma BalancedKeeps(s: State, t: State, i: int)
    requires Core(s) && Balanced(s, t, i)
    ensures Core(t)
  {
    hide CountsOk, HeldOk, SlotsOk, OwnersOk, Balanced;
    BalancedCounts(s, t, i);
    BalancedHeld(s, t, i);
    BalancedOwners(s, t, i);
  }

  // ------------------------------------------------------------ consumer totals

  lemma {:induction false} TotalUpdate(cs: seq<Connection>, c: nat, d: Connection, consumer: string, p: Pool)
    requires c < |cs| && d.consumer == cs[c].consumer
    ensures ConsumerTotal(cs[c := d], consumer, p) == ConsumerTotal(cs, consumer, p)
      + if d.consumer == consumer then Of(d.granted, p) - Of(cs[c].granted, p) else 0
    ensures ConnectionsOf(cs[c := d], consumer) == ConnectionsOf(cs, consumer)
  {
    var n := |cs| - 1;
    var ds := cs[c := d];
    if c == n {
      assert ds[..n] == cs[..n];
    } else {
      assert ds[..n] == cs[..n][c := d] && ds[n] == cs[n];
      TotalUpdate(cs[..n], c, d, consumer, p);
    }
  }

  // Taking one connection's grants up or down by k.
  lemma QuotasMove(cs: seq<Connection>, c: nat, p: Pool, k: int)
    requires c < |cs| && QuotasOk(cs)
    requires k <= 0 || ConsumerTotal(cs, cs[c].consumer, p) + k <= Of(cs[c].limits.chunks, p)
    ensures QuotasOk(cs[c := cs[c].(granted := Plus(cs[c].granted, p, k))])
  {
    hide ConsumerTotal, ConnectionsOf, LimitsAgree;
    var d := cs[c].(granted := Plus(cs[c].granted, p, k));
    forall j, q | 0 <= j < |cs|
      ensures ConsumerTotal(cs[c := d], cs[j].consumer, q) <= Of(cs[j].limits.chunks, q)
    {
      QuotaMove(cs, c, p, k, j, q);
    }
    forall j | 0 <= j < |cs|
      ensures LimitsAgree(cs[c := d], cs[j].consumer, cs[j].limits)
      ensures ConnectionsOf(cs[c := d], cs[j].consumer) <= cs[j].limits.connections
    {
      AgreeMove(cs, c, d, j);
      TotalUpdate(cs, c, d, cs[j].consumer, p);
    }
  }

  lemma AgreeMove(cs: seq<Connection>, c: nat, d: Connection, j: nat)
    requires c < |cs| && j < |cs| && LimitsAgree(cs, cs[j].consumer, cs[j].limits)
    requires d.consumer == cs[c].consumer && d.limits == cs[c].limits
    ensures LimitsAgree(cs[c := d], cs[j].consumer, cs[j].limits)
  {}

  lemma QuotaMove(cs: seq<Connection>, c: nat, p: Pool, k: int, j: nat, q: Pool)
    requires c < |cs| && j < |cs| && QuotasOk(cs)
    requires k <= 0 || ConsumerTotal(cs, cs[c].consumer, p) + k <= Of(cs[c].limits.chunks, p)
    ensures ConsumerTotal(cs[c := cs[c].(granted := Plus(cs[c].granted, p, k))], cs[j].consumer, q) <= Of(cs[j].limits.chunks, q)
  {
    hide ConsumerTotal, ConnectionsOf;
    TotalUpdate(cs, c, cs[c].(granted := Plus(cs[c].granted, p, k)), cs[j].consumer, q);
    assert LimitsAgree(cs, cs[j].consumer, cs[j].limits);
    assert ConsumerTotal(cs, cs[j].consumer, q) <= Of(cs[j].limits.chunks, q);
  }

  // ------------------------------------------------------------------ releasing

  lemma HeldSlot(s: State, i: int)
    requires HeldOk(s) && 0 <= i < |s.slots|
    ensures s.slots[i].address != 0 ==> s.slots[i].address in s.live
    ensures s.slots[i].registration != 0 ==> s.slots[i].registration in s.registered
  {}

  lemma ReleaseBalanced(s: State, c: nat, id: nat, cause: Cause, stuck: bool)
    requires Core(s) && c < |s.connections| && id < |s.slots| && s.slots[id].owner == s.connections[c].owner
    requires ReleaseOne(s, c, id, cause, stuck).1.Ok?
    ensures Balanced(s, ReleaseOne(s, c, id, cause, stuck).0, id)
  {
    hide CountsOk;
    var t := ReleaseOne(s, c, id, cause, stuck).0;
    assert SlotOk(s.slots[id]) && s.connections[c].owner != 0;
    OwnedSlot(s, id, c);
    var q := s.slots[id].pool.value;
    assert q.Opportunistic? || q.Committed?;
    HeldSlot(s, id);
    forall k, p | 0 <= k < |s.connections|
      ensures HolderMoved(s.connections[k], t.connections[k], s.slots[id], t.slots[id], p)
    {
      assert s.connections[k].owner != 0 && (k != c ==> s.connections[k].owner != s.connections[c].owner);
    }
  }

  // What a release keeps: everything but the released slots.
  ghost predicate Released(s: State, t: State, changed: set<int>) {
    && Inv(t) && |t.slots| == |s.slots| && |t.connections| == |s.connections| && t.config == s.config
    && (forall i :: 0 <= i < |s.slots| && i !in changed ==> t.slots[i] == s.slots[i])
    && (forall i :: 0 <= i < |s.slots| && s.slots[i].quarantined ==> t.slots[i] == s.slots[i])
    && (forall k :: 0 <= k < |s.connections| ==>
          t.connections[k] == s.connections[k].(granted := t.connections[k].granted))
  }

  lemma ReleaseKeeps(s: State, c: nat, id: nat, cause: Cause, stuck: bool)
    requires Inv(s) && c < |s.connections| && id < |s.slots| && s.slots[id].owner == s.connections[c].owner
    ensures var (t, r) := ReleaseOne(s, c, id, cause, stuck); Released(s, t, {id})
  {
    hide Core, QuotasOk, Balanced;
    var (t, r) := ReleaseOne(s, c, id, cause, stuck);
    OwnedSlot(s, id, c);
    if r.Ok? {
      ReleaseBalanced(s, c, id, cause, stuck);
      BalancedKeeps(s, t, id);
      QuotasMove(s.connections, c, s.slots[id].pool.value, -1);
    } else {
      Unhealthy(s);
    }
  }

  lemma OwnedSlot(s: State, id: nat, c: nat)
    requires Core(s) && id < |s.slots| && c < |s.connections| && s.slots[id].owner == s.connections[c].owner
    ensures s.slots[id].owner != 0 && s.slots[id].pool.Some? && !s.slots[id].quarantined && s.slots[id].registration != 0
  {
    assert SlotOk(s.slots[id]);
  }

  lemma Unhealthy(s: State)
    requires Inv(s)
    ensures Inv(s.(healthy := false))
  {}

  lemma ReleasedTwice(s: State, t: State, u: State, first: set<int>, second: set<int>)
    requires Released(s, t, first) && Released(t, u, second)
    ensures Released(s, u, first + second)
  {
    hide Inv;
    forall k | 0 <= k < |s.connections| ensures u.connections[k] == s.connections[k].(granted := u.connections[k].granted) {
      assert t.connections[k] == s.connections[k].(granted := t.connections[k].granted);
      assert u.connections[k] == t.connections[k].(granted := u.connections[k].granted);
    }
    forall i | 0 <= i < |s.slots| && s.slots[i].quarantined ensures u.slots[i] == s.slots[i] {
      assert t.slots[i] == s.slots[i];
    }
  }

  lemma ReleasedNone(s: State)
    requires Inv(s)
    ensures Released(s, s, {})
  {
    hide Inv;
  }

  function Members(ids: seq<nat>): set<int> { set i | i in ids }

  lemma MembersNext(ids: seq<nat>, k: nat)
    requires k < |ids|
    ensures Members(ids[..k + 1]) == Members(ids[..k]) + {ids[k]}
  {
    assert ids[..k + 1] == ids[..k] + [ids[k]];
  }

  lemma {:induction false} ReleaseFirstKeeps(s: State, c: nat, ids: seq<nat>, cause: Cause, a: Adapters, k: nat)
    requires Inv(s) && c < |s.connections| && k <= |ids|
    requires forall i :: 0 <= i < |ids| ==>
      ids[i] < |s.slots| && s.slots[ids[i]].owner == s.connections[c].owner && ids[i] !in ids[..i]
    ensures Released(s, ReleaseFirst(s, c, ids, cause, a, k).0, Members(ids[..k]))
  {
    hide Inv;
    if k == 0 {
      assert Members(ids[..0]) == {};
      ReleasedNone(s);
    } else {
      ReleaseFirstKeeps(s, c, ids, cause, a, k - 1);
      MembersNext(ids, k - 1);
      var (t, r) := ReleaseFirst(s, c, ids, cause, a, k - 1);
      if r == Ok {
        var id := ids[k - 1];
        assert id !in ids[..k - 1] && t.slots[id] == s.slots[id];
        assert t.connections[c] == s.connections[c].(granted := t.connections[c].granted);
        ReleaseKeeps(t, c, id, cause, a.stuck(k - 1));
        ReleasedTwice(s, t, ReleaseFirst(s, c, ids, cause, a, k).0, Members(ids[..k - 1]), {id});
      }
    }
  }

  // Quarantined slots, and the limits of connections that stay, survive every call.
  ghost predicate Keeps(s: State, t: State) {
    && Inv(t) && |t.slots| == |s.slots| && t.config == s.config
    && forall i :: 0 <= i < |s.slots| && s.slots[i].quarantined ==> t.slots[i] == s.slots[i]
  }

  lemma ReleaseCallKeeps(s: State, owner: nat, ids: seq<nat>, cause: Cause, a: Adapters)
    requires Inv(s)
    ensures var t := Release(s, owner, ids, cause, a).0;
      && Keeps(s, t)
      && (cause.ByPressure? ==>
            forall i :: 0 <= i < |s.slots| && s.slots[i].pool == Some(Committed) ==> t.slots[i] == s.slots[i])
  {
    hide Inv, ReleaseFirst, ReleaseOne, ReleaseRefusal;
    var found := FindConnection(s.connections, owner, 0);
    if owner != 0 && ids != [] && found.Some? && ReleaseRefusal(s, owner, ids, cause, |ids|) == Ok {
      AcceptedInTable(s, owner, ids, cause, |ids|);
      assert ids[..|ids|] == ids;
      ReleaseFirstKeeps(s, found.value, ids, cause, a, |ids|);
      var t := ReleaseFirst(s, found.value, ids, cause, a, |ids|).0;
      if cause.ByPressure? {
        forall i | 0 <= i < |s.slots| && s.slots[i].pool == Some(Committed) ensures t.slots[i] == s.slots[i] {
          assert forall k :: 0 <= k < |ids| ==> ids[k] != i;
        }
      }
    }
  }

  // --------------------------------------------------------------- disconnecting

  function OwnedBelow(slots: seq<Slot>, owner: nat, k: nat): set<int> {
    set i | 0 <= i < k && i < |slots| && slots[i].owner == owner
  }

  lemma {:induction false} GiveUpKeeps(s: State, c: nat, owner: nat, a: Adapters, k: nat)
    requires Inv(s) && c < |s.connections| && owner == s.connections[c].owner && k <= |s.slots|
    ensures var (t, r) := GiveUpBelow(s, c, owner, a, k);
      && Released(s, t, OwnedBelow(s.slots, owner, k))
      && (r == Ok ==> forall i :: 0 <= i < k ==> t.slots[i].owner != owner)
  {
    hide Inv, ReleaseOne;
    if k == 0 {
      assert OwnedBelow(s.slots, owner, 0) == {};
      ReleasedNone(s);
    } else {
      GiveUpKeeps(s, c, owner, a, k - 1);
      var (t, r) := GiveUpBelow(s, c, owner, a, k - 1);
      var before, after := OwnedBelow(s.slots, owner, k - 1), OwnedBelow(s.slots, owner, k);
      assert t.slots[k - 1] == s.slots[k - 1];
      assert after == if s.slots[k - 1].owner == owner then before + {k - 1} else before;
      if r == Ok && s.slots[k - 1].owner == owner {
        assert t.connections[c] == s.connections[c].(granted := t.connections[c].granted);
        ReleaseKeeps(t, c, k - 1, ByDisconnect, a.stuck(k - 1));
        var u := ReleaseOne(t, c, k - 1, ByDisconnect, a.stuck(k - 1)).0;
        ReleasedTwice(s, t, u, before, {k - 1});
        ReleasedOwner(t, c, k - 1, a.stuck(k - 1));
      }
    }
  }

  lemma ReleasedOwner(s: State, c: nat, id: nat, stuck: bool)
    requires Inv(s) && c < |s.connections| && id < |s.slots| && s.slots[id].owner == s.connections[c].owner
    ensures var (t, r) := ReleaseOne(s, c, id, ByDisconnect, stuck);
      r == Ok ==> t.slots[id].owner != s.connections[c].owner
  {
    OwnedSlot(s, id, c);
    hide Inv;
  }

  lemma RemoveTotals(cs: seq<Connection>, c: nat, consumer: string, p: Pool)
    requires c < |cs|
    ensures ConsumerTotal(RemoveConnection(cs, c), consumer, p) == ConsumerTotal(cs, consumer, p)
      - if cs[c].consumer == consumer then Of(cs[c].granted, p) else 0
    ensures ConnectionsOf(RemoveConnection(cs, c), consumer) <= ConnectionsOf(cs, consumer)
  {
    var n := |cs| - 1;
    if c == n {
      assert RemoveConnection(cs, c) == cs[..n];
    } else {
      assert RemoveConnection(cs, c) == cs[..n][c := cs[n]];
      TotalReplace(cs[..n], c, cs[n], consumer, p);
    }
  }

  lemma {:induction false} TotalReplace(cs: seq<Connection>, c: nat, d: Connection, consumer: string, p: Pool)
    requires c < |cs|
    ensures ConsumerTotal(cs[c := d], consumer, p) == ConsumerTotal(cs, consumer, p)
      + (if d.consumer == consumer then Of(d.granted, p) else 0)
      - (if cs[c].consumer == consumer then Of(cs[c].granted, p) else 0)
    ensures ConnectionsOf(cs[c := d], consumer) ==
      ConnectionsOf(cs, consumer) + One(d.consumer == consumer) - One(cs[c].consumer == consumer)
  {
    var n := |cs| - 1;
    var ds := cs[c := d];
    if c == n {
      assert ds[..n] == cs[..n];
    } else {
      assert ds[..n] == cs[..n][c := d] && ds[n] == cs[n];
      TotalReplace(cs[..n], c, d, consumer, p);
    }
  }

  // A connection that owns nothing can go.
  lemma RemoveKeeps(s: State, c: nat)
    requires Inv(s) && c < |s.connections|
    requires forall i :: 0 <= i < |s.slots| ==> s.slots[i].owner != s.connections[c].owner
    ensures Inv(s.(connections := RemoveConnection(s.connections, c)))
  {
    hide SlotOk, PoolSet, OwnedSet, QuarantineSet, Addresses, Registrations, ConsumerTotal, ConnectionsOf;
    var cs, ds := s.connections, RemoveConnection(s.connections, c);
    var t := s.(connections := ds);
    var n := |cs| - 1;
    assert forall k :: 0 <= k < n ==> ds[k] == if k == c then cs[n] else cs[k];
    forall i | 0 <= i < |t.slots| && t.slots[i].owner != 0 ensures Connected(t, t.slots[i].owner) {
      assert Connected(s, s.slots[i].owner);
      var k :| 0 <= k < |cs| && cs[k].owner == s.slots[i].owner;
      assert ds[if k == n then c else k].owner == s.slots[i].owner;
    }
    RemovedQuotas(s, c);
  }

  lemma RemovedQuotas(s: State, c: nat)
    requires Inv(s) && c < |s.connections|
    requires forall i :: 0 <= i < |s.slots| ==> s.slots[i].owner != s.connections[c].owner
    ensures QuotasOk(RemoveConnection(s.connections, c))
  {
    hide SlotOk, PoolSet, OwnedSet, QuarantineSet, Addresses, Registrations, ConsumerTotal, ConnectionsOf;
    var cs, ds := s.connections, RemoveConnection(s.connections, c);
    var n := |cs| - 1;
    assert forall k :: 0 <= k < n ==> ds[k] == if k == c then cs[n] else cs[k];
    forall k | 0 <= k < |ds|
      ensures LimitsAgree(ds, ds[k].consumer, ds[k].limits) && ConnectionsOf(ds, ds[k].consumer) <= ds[k].limits.connections
      ensures forall p :: ConsumerTotal(ds, ds[k].consumer, p) <= Of(ds[k].limits.chunks, p)
    {
      var j := if k == c then n else k;
      assert LimitsAgree(cs, cs[j].consumer, cs[j].limits);
      forall p ensures ConsumerTotal(ds, ds[k].consumer, p) <= Of(ds[k].limits.chunks, p) {
        RemoveTotals(cs, c, ds[k].consumer, p);
        assert OwnedBy(s.slots, cs[c].owner, p) == {};
        assert Of(cs[c].granted, p) == |OwnedBy(s.slots, cs[c].owner, p)|;
        assert ConsumerTotal(cs, cs[j].consumer, p) <= Of(cs[j].limits.chunks, p);
      }
      RemoveTotals(cs, c, ds[k].consumer, Opportunistic);
    }
  }

  lemma DisconnectKeeps(s: State, owner: nat, a: Adapters)
    requires Inv(s)
    ensures Keeps(s, Disconnect(s, owner, a).0)
  {
    hide Inv, GiveUpBelow, ReleaseOne;
    var found := FindConnection(s.connections, owner, 0);
    if owner != 0 && found.Some? {
      var c := found.value;
      GiveUpKeeps(s, c, owner, a, |s.slots|);
      var (t, r) := GiveUpBelow(s, c, owner, a, |s.slots|);
      if r == Ok {
        assert t.connections[c] == s.connections[c].(granted := t.connections[c].granted);
        RemoveKeeps(t, c);
      }
    }
  }

  lemma ConnectKeeps(s: State, consumer: string, owner: nat, limits: Limits, room: bool)
    requires Inv(s)
    ensures Keeps(s, Connect(s, consumer, owner, limits, room).0)
  {
    var (t, r) := Connect(s, consumer, owner, limits, room);
    if r == Ok {
      ConnectCore(s, t);
      ConnectQuotas(s, t);
    }
  }

  ghost predicate Adds(s: State, t: State) {
    && |t.connections| == |s.connections| + 1 && t.connections[..|s.connections|] == s.connections
    && t == s.(connections := t.connections)
    && var d := t.connections[|s.connections|];
       && d.owner != 0 && d.granted == Counts(0, 0) && (forall k :: 0 <= k < |s.connections| ==> s.connections[k].owner != d.owner)
       && ConnectionsOf(s.connections, d.consumer) < d.limits.connections
       && LimitsAgree(s.connections, d.consumer, d.limits)
  }

  lemma ConnectCore(s: State, t: State)
    requires Core(s) && Adds(s, t)
    ensures Core(t)
  {
    hide SlotOk, PoolSet, OwnedSet, QuarantineSet, Addresses, Registrations, ConsumerTotal, ConnectionsOf;
    var n := |s.connections|;
    var d := t.connections[n];
    assert forall k :: 0 <= k < n ==> t.connections[k] == s.connections[k];
    forall i | 0 <= i < |t.slots| && t.slots[i].owner != 0 ensures Connected(t, t.slots[i].owner) {
      assert Connected(s, s.slots[i].owner);
      var k :| 0 <= k < n && s.connections[k].owner == s.slots[i].owner;
      assert t.connections[k].owner == s.slots[i].owner;
    }
    forall p ensures OwnedBy(s.slots, d.owner, p) == {} {
      forall i | 0 <= i < |s.slots| ensures s.slots[i].owner != d.owner {
        if s.slots[i].owner != 0 { assert Connected(s, s.slots[i].owner); }
      }
    }
  }

  lemma ConnectQuotas(s: State, t: State)
    requires QuotasOk(s.connections) && Adds(s, t)
    ensures QuotasOk(t.connections)
  {
    var cs, ds, n := s.connections, t.connections, |s.connections|;
    var d := ds[n];
    assert forall k :: 0 <= k < n ==> ds[k] == cs[k];
    forall k | 0 <= k < |ds|
      ensures LimitsAgree(ds, ds[k].consumer, ds[k].limits) && ConnectionsOf(ds, ds[k].consumer) <= ds[k].limits.connections
      ensures forall p :: ConsumerTotal(ds, ds[k].consumer, p) <= Of(ds[k].limits.chunks, p)
    {
      if k < n {
        assert LimitsAgree(cs, cs[k].consumer, cs[k].limits);
      } else if exists j :: 0 <= j < n && cs[j].consumer == d.consumer {
        var j :| 0 <= j < n && cs[j].consumer == d.consumer;
        assert forall p :: ConsumerTotal(cs, cs[j].consumer, p) <= Of(cs[j].limits.chunks, p);
      } else {
        forall p ensures ConsumerTotal(cs, d.consumer, p) == 0 { NoTotal(cs, d.consumer, p); }
      }
    }
  }

  lemma {:induction false} NoTotal(cs: seq<Connection>, consumer: string, p: Pool)
    requires forall j :: 0 <= j < |cs| ==> cs[j].consumer != consumer
    ensures ConsumerTotal(cs, consumer, p) == 0
  {
    if cs != [] { NoTotal(cs[..|cs| - 1], consumer, p); }
  }
}
