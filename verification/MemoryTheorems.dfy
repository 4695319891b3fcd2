/**
 Results about the memory manager: what holds after every run whatever the
 adapters answer, that the reported availability decides admission exactly, what
 a failed acquire leaves behind, and that reconciling is safe and idempotent.
 */
module MemoryTheorems {
  import opened Options
  import opened MemoryState
  import opened MemoryInvariant
  import opened MemoryGrants

  // --------------------------------------------------------------- set sizes

  lemma PoolSplits(s: State, p: Pool)
    requires Core(s)
    ensures |FreeSet(s.slots, p)| == Of(s.allocation, p) - Of(s.granted, p) - |Quarantined(s.slots, p)|
    ensures p.Committed? ==> |FreeSet(s.slots, p)| == 0
  {
    hide PoolSet, OwnedSet, Quarantined, FreeSet, HeldOk, OwnersOk, SlotsOk;
    PoolParts(s, p);
    ThreeParts(PoolSet(s.slots, p), OwnedSet(s.slots, p), Quarantined(s.slots, p), FreeSet(s.slots, p));
  }

  lemma PoolParts(s: State, p: Pool)
    requires SlotsOk(s)
    ensures PoolSet(s.slots, p) == OwnedSet(s.slots, p) + Quarantined(s.slots, p) + FreeSet(s.slots, p)
    ensures OwnedSet(s.slots, p) !! Quarantined(s.slots, p) !! FreeSet(s.slots, p)
    ensures p.Committed? ==> FreeSet(s.slots, p) == {}
  {
    forall i | 0 <= i < |s.slots| ensures SlotOk(s.slots[i]) {}
  }

  lemma {:induction false} TableSize(n: nat) returns (r: set<int>)
    ensures |r| == n && forall i :: i in r <==> 0 <= i < n
  {
    if n == 0 { r := {}; } else {
      var q := TableSize(n - 1);
      r := q + {n - 1};
    }
  }

  lemma EmptySize(s: State)
    requires Core(s)
    ensures |EmptySet(s.slots)| == |s.slots| - s.allocation.opportunistic - s.allocation.committed
  {
    hide EmptySet, PoolSet, CountsOk, HeldOk, OwnersOk;
    var all := TableSize(|s.slots|);
    var a, b, c := EmptySet(s.slots), PoolSet(s.slots, Opportunistic), PoolSet(s.slots, Committed);
    forall i ensures i in all <==> i in a + b + c { SlotPlace(s, i); }
    assert all == a + b + c;
    forall i | i in a ensures i !in b && i !in c { SlotPlace(s, i); }
    forall i | i in b ensures i !in c { SlotPlace(s, i); }
    ThreeParts(all, a, b, c);
    PoolCounts(s);
  }

  lemma PoolCounts(s: State)
    requires CountsOk(s)
    ensures s.allocation.opportunistic == |PoolSet(s.slots, Opportunistic)|
    ensures s.allocation.committed == |PoolSet(s.slots, Committed)|
  {
    assert Of(s.allocation, Opportunistic) == |PoolSet(s.slots, Opportunistic)|;
    assert Of(s.allocation, Committed) == |PoolSet(s.slots, Committed)|;
  }

  lemma SlotPlace(s: State, i: int)
    requires SlotsOk(s)
    ensures i in EmptySet(s.slots) <==> 0 <= i < |s.slots| && s.slots[i].pool.None?
    ensures i in PoolSet(s.slots, Opportunistic) <==> 0 <= i < |s.slots| && s.slots[i].pool.Some? && s.slots[i].pool.value.Opportunistic?
    ensures i in PoolSet(s.slots, Committed) <==> 0 <= i < |s.slots| && s.slots[i].pool.Some? && s.slots[i].pool.value.Committed?
  {
    if 0 <= i < |s.slots| { assert SlotOk(s.slots[i]); }
  }

  lemma ThreeParts(all: set<int>, a: set<int>, b: set<int>, c: set<int>)
    requires all == a + b + c && a !! b !! c
    ensures |all| == |a| + |b| + |c|
  {}

  // ------------------------------------------------------------ admission oracle

  // For the same owner and memory reading, n chunks are admitted exactly when n is at most what the status reports.
  lemma StatusDecidesAdmission(s: State, c: nat, p: Pool, n: nat, bytes: nat)
    requires Inv(s) && c < |s.connections| && n > 0
    ensures Admit(s, c, p, n, Some(bytes)) == Ok <==> n <= Available(s, Some(c), p, bytes)
  {
    hide Selection, ConsumerTotal, CountOf, FreeSet, EmptySet, Quarantined, Core, QuotasOk;
    SelectionCounts(s, p, n);
    PoolSplits(s, p);
    PoolSplits(s, Opportunistic);
    EmptySize(s);
    QuotaHolds(s, c, p);
    assert Of(s.allocation, Opportunistic) <= Of(s.config.maximum, Opportunistic);
    assert Of(s.allocation, Committed) <= Of(s.config.maximum, Committed);
  }

  lemma QuotaHolds(s: State, c: nat, p: Pool)
    requires Inv(s) && c < |s.connections|
    ensures ConsumerTotal(s.connections, s.connections[c].consumer, p) <= Of(s.connections[c].limits.chunks, p)
  {}

  // ------------------------------------------------------------- failed acquires

  // The manager is unhealthy and differs only in the newly quarantined slots.
  ghost predicate Sequesters(s: State, t: State, stuck: set<int>) {
    && !t.healthy && t.connections == s.connections && t.granted == s.granted && |t.slots| == |s.slots|
    && stuck != {} && QuarantineSet(t.slots) == QuarantineSet(s.slots) + stuck
    && (forall j :: 0 <= j < |s.slots| && j !in stuck ==> t.slots[j] == s.slots[j])
    && t.quarantined == s.quarantined + |stuck|
  }

  // A failed acquire whose rollback succeeds leaves the manager and its adapters as they were. One that fails to
  // deregister quarantines exactly those chunks, keeps them counted and grants nothing.
  lemma AcquireAllOrNothing(s: State, owner: nat, p: Pool, n: nat, a: Adapters)
    requires Inv(s) && AnswersNew(s, a)
    ensures var (t, r, grants) := Acquire(s, owner, p, n, a);
      var ps := Selection(s.slots, p, n);
      && (r != Ok && r != CleanupFailed ==> t == s && grants == [])
      && (r == CleanupFailed ==> grants == [] && Sequesters(s, t, StuckSlots(ps, a, RegistrationStop(n, a, 0))))
  {
    hide Inv, Admit, Selection, QuarantineFirst, InstallFirst, GrantsOf, Unused, Distinct, StuckSlots, ChosenSlots, Suitable,
      SomeStuck, Sequesters, AllocationStop, RegistrationStop;
    var found := FindConnection(s.connections, owner, 0);
    if owner != 0 && n != 0 && a.scratch && found.Some? {
      AdmitAnswers(s, found.value, p, n, a.reading);
      if Admit(s, found.value, p, n, a.reading) == Ok { AcquireFails(s, found.value, p, n, a); }
    }
  }

  lemma AdmitAnswers(s: State, c: nat, p: Pool, n: nat, reading: Option<nat>)
    requires c < |s.connections|
    ensures Admit(s, c, p, n, reading) in {Ok, QuotaExceeded, PoolExhausted, AccountingFailed, HostReserve}
  {
    hide Selection, ConsumerTotal, CountOf;
  }

  lemma AcquireFails(s: State, c: nat, p: Pool, n: nat, a: Adapters)
    requires Inv(s) && AnswersNew(s, a) && c < |s.connections| && Admit(s, c, p, n, a.reading) == Ok
    ensures var ps := Selection(s.slots, p, n);
      && |ps| == n && (forall i :: 0 <= i < |ps| ==> ps[i].index < |s.slots|)
      && var last := RegistrationStop(|ps|, a, 0);
         AllocationStop(ps, a, 0) == |ps| && last < |ps| ==>
           var t := QuarantineFirst(s, ps, p, a, last);
           if SomeStuck(a, last) then Sequesters(s, t.(healthy := false), StuckSlots(ps, a, last)) else t == s
  {
    hide Inv, Admit, Selection, QuarantineFirst, Unused, Distinct, StuckSlots, Suitable, SomeStuck, Sequesters;
    var ps := Selection(s.slots, p, n);
    AdmitMeans(s, c, p, n, a.reading);
    SelectionInTable(s.slots, p, n);
    var last := RegistrationStop(|ps|, a, 0);
    if AllocationStop(ps, a, 0) == |ps| && last < |ps| {
      AcquireQuarantines(s, c, p, n, a, last);
      if SomeStuck(a, last) {
        QuarantinedExactly(s, QuarantineFirst(s, ps, p, a, last), p, ps, a, last);
      } else {
        NoneQuarantined(s, ps, p, a, last);
      }
    }
  }

  lemma {:induction false} NoneQuarantined(s: State, ps: seq<Pending>, p: Pool, a: Adapters, k: nat)
    requires k <= |ps| && !SomeStuck(a, k) && forall i :: 0 <= i < |ps| ==> ps[i].index < |s.slots|
    ensures QuarantineFirst(s, ps, p, a, k) == s
  {
    if k > 0 { NoneQuarantined(s, ps, p, a, k - 1); }
  }

  lemma QuarantinedExactly(s: State, t: State, p: Pool, ps: seq<Pending>, a: Adapters, k: nat)
    requires Inv(s) && Suitable(s, p, ps, 0) && k <= |ps| && SomeStuck(a, k)
    requires Quarantines(s, t, StuckSlots(ps, a, k))
    ensures Sequesters(s, t.(healthy := false), StuckSlots(ps, a, k))
  {
    hide Core, QuotasOk, IsFree;
    var stuck := StuckSlots(ps, a, k);
    var i :| 0 <= i < k && a.stuck(i);
    assert ps[i].index in stuck;
    StuckUsable(s, ps, p, a, k);
    forall j | j in stuck ensures 0 <= j < |s.slots| && j !in QuarantineSet(s.slots) {
      var m :| 0 <= m < k && ps[m].index == j;
    }
    QuarantineGrows(s, t, stuck);
    QuarantineCounts(s);
    QuarantineCounts(t);
    Disjoint(QuarantineSet(s.slots), stuck);
  }

  lemma QuarantineGrows(s: State, t: State, stuck: set<int>)
    requires Quarantines(s, t, stuck) && forall j :: j in stuck ==> 0 <= j < |s.slots|
    ensures QuarantineSet(t.slots) == QuarantineSet(s.slots) + stuck
  {
    hide Core;
    var before, after := QuarantineSet(s.slots), QuarantineSet(t.slots);
    forall j | j in after ensures j in before + stuck { assert j !in stuck ==> t.slots[j] == s.slots[j]; }
    forall j | j in before + stuck ensures j in after { assert j !in stuck ==> t.slots[j] == s.slots[j]; }
  }

  lemma QuarantineCounts(s: State)
    requires Core(s)
    ensures s.quarantined == |QuarantineSet(s.slots)|
  {}

  lemma Disjoint<T>(x: set<T>, y: set<T>)
    requires forall j :: j in y ==> j !in x
    ensures |x + y| == |x| + |y|
  {
    assert x * y == {};
  }

  // -------------------------------------------------------------------- grants

  lemma {:induction false} InstalledSlot(s: State, c: nat, ps: seq<Pending>, p: Pool, a: Adapters, k: nat, i: nat)
    requires c < |s.connections| && i < k <= |ps| && Suitable(s, p, ps, 0)
    ensures var t := InstallFirst(s, c, ps, p, a, k);
      && t.slots[ps[i].index] == Slot(AddressAt(s, ps, a, i), a.register(i), s.connections[c].owner, Some(p),
                                      s.slots[ps[i].index].quarantined)
      && t.connections[c].owner == s.connections[c].owner
  {
    hide Suits;
    if i < k - 1 {
      InstalledSlot(s, c, ps, p, a, k - 1, i);
    } else {
      InstallLeaves(s, c, ps, p, a, k - 1, ps[i].index);
      InstallOwner(s, c, ps, p, a, k - 1);
    }
  }

  lemma {:induction false} InstallOwner(s: State, c: nat, ps: seq<Pending>, p: Pool, a: Adapters, k: nat)
    requires c < |s.connections| && k <= |ps| && forall i :: 0 <= i < |ps| ==> ps[i].index < |s.slots|
    ensures InstallFirst(s, c, ps, p, a, k).connections[c].owner == s.connections[c].owner
  {
    if k > 0 { InstallOwner(s, c, ps, p, a, k - 1); }
  }

  // A successful acquire grants n distinct chunks, each recorded as the owner's in the pool asked for, and nothing else moves.
  lemma AcquireGrants(s: State, owner: nat, p: Pool, n: nat, a: Adapters)
    requires Inv(s) && AnswersNew(s, a) && Acquire(s, owner, p, n, a).1 == Ok
    ensures var (t, _, grants) := Acquire(s, owner, p, n, a);
      && |grants| == n && |t.slots| == |s.slots|
      && (forall k :: 0 <= k < n ==>
            && grants[k].chunk < |t.slots| && grants[k].pool == p
            && t.slots[grants[k].chunk] == Slot(grants[k].address, grants[k].registration, owner, Some(p), false))
      && (forall j, k :: 0 <= j < k < n ==> grants[j].chunk != grants[k].chunk)
      && forall i :: 0 <= i < |s.slots| ==> t.slots[i] == s.slots[i] || exists k :: 0 <= k < n && grants[k].chunk == i
  {
    hide Inv, Admit, Selection, QuarantineFirst, InstallFirst, GrantsOf, Unused, Distinct, Suits, SomeStuck, AllocationStop,
      RegistrationStop;
    var c := FindConnection(s.connections, owner, 0).value;
    AdmitAnswers(s, c, p, n, a.reading);
    AdmitMeans(s, c, p, n, a.reading);
    SelectionSuitable(s, p, n);
    SelectionInTable(s.slots, p, n);
    InstallOutcome(s, c, Selection(s.slots, p, n), p, a);
  }

  lemma InstallOutcome(s: State, c: nat, ps: seq<Pending>, p: Pool, a: Adapters)
    requires Inv(s) && c < |s.connections| && Suitable(s, p, ps, 0)
    ensures var t, grants := InstallFirst(s, c, ps, p, a, |ps|), GrantsOf(s, ps, p, a);
      && |grants| == |ps|
      && (forall k :: 0 <= k < |ps| ==>
            && grants[k].chunk < |t.slots| && grants[k].pool == p
            && t.slots[grants[k].chunk] ==
                 Slot(grants[k].address, grants[k].registration, s.connections[c].owner, Some(p), false))
      && (forall j, k :: 0 <= j < k < |ps| ==> grants[j].chunk != grants[k].chunk)
      && forall i :: 0 <= i < |s.slots| ==> t.slots[i] == s.slots[i] || exists k :: 0 <= k < |ps| && grants[k].chunk == i
  {
    hide Inv, InstallFirst, Suits;
    var t, grants := InstallFirst(s, c, ps, p, a, |ps|), GrantsOf(s, ps, p, a);
    assert forall k :: 0 <= k < |ps| ==> grants[k].chunk == ps[k].index;
    CoreOf(s);
    forall k | 0 <= k < |ps|
      ensures t.slots[ps[k].index] == Slot(grants[k].address, grants[k].registration, s.connections[c].owner, Some(p), false)
    {
      InstalledSlot(s, c, ps, p, a, |ps|, k);
      SuitsUsable(s, p, ps[k]);
    }
    forall i | 0 <= i < |s.slots| ensures t.slots[i] == s.slots[i] || exists k :: 0 <= k < |ps| && grants[k].chunk == i {
      if forall k :: 0 <= k < |ps| ==> ps[k].index != i { InstallLeaves(s, c, ps, p, a, |ps|, i); }
    }
  }

  lemma CoreOf(s: State)
    requires Inv(s)
    ensures Core(s)
  {}

  // --------------------------------------------------------------- reconciling

  // Slots of the pool that were empty and are now unassigned opportunistic memory.
  ghost predicate Places(s: State, t: State, chosen: set<int>, k: nat) {
    && Core(t) && |t.slots| == |s.slots|
    && t == s.(slots := t.slots, allocation := Plus(s.allocation, Opportunistic, k), live := t.live)
    && (forall j :: 0 <= j < |s.slots| && j !in chosen ==> t.slots[j] == s.slots[j])
    && (forall j :: 0 <= j < |s.slots| && j in chosen ==> s.slots[j] == EMPTY)
  }

  lemma PlaceStep(s: State, t: State, ps: seq<Pending>, a: Adapters, k: nat)
    requires Core(s) && Suitable(s, Opportunistic, ps, 0) && k < |ps| && Distinct(a) && ps[k].origin.Fresh?
    requires a.allocate(k).Usable? && t == PlaceFirst(s, ps, a, k)
    requires Places(s, t, ChosenSlots(ps, k), k) && Unused(t, a, k)
    ensures var u := PlaceFirst(s, ps, a, k + 1); Places(s, u, ChosenSlots(ps, k + 1), k + 1) && Unused(u, a, k + 1)
  {
    hide CountsOk, HeldOk, OwnersOk, ChosenSlots, IsFree;
    ChosenNext(ps, k);
    var u := PlaceFirst(s, ps, a, k + 1);
    var i := ps[k].index;
    assert Suits(s, Opportunistic, ps[k]) && t.slots[i] == s.slots[i] && SlotOk(s.slots[i]);
    PlaceBalanced(t, u, i, a.allocate(k).address);
    BalancedKeeps(t, u, i);
    UnusedPlaced(t, u, a, k);
  }

  lemma PlaceBalanced(s: State, t: State, i: nat, address: nat)
    requires Core(s) && i < |s.slots| && s.slots[i] == EMPTY && address != 0 && address !in s.live
    requires t == s.(slots := s.slots[i := EMPTY.(address := address, pool := Some(Opportunistic))],
                     allocation := Plus(s.allocation, Opportunistic, 1), live := s.live + {address})
    ensures Balanced(s, t, i)
  {
    hide CountsOk, HeldOk;
    forall q ensures PoolMoved(s, t, s.slots[i], t.slots[i], q) {}
    forall c, q | 0 <= c < |s.connections| ensures HolderMoved(s.connections[c], t.connections[c], s.slots[i], t.slots[i], q) {
      assert s.connections[c].owner != 0;
    }
  }

  lemma UnusedPlaced(s: State, t: State, a: Adapters, k: nat)
    requires Unused(s, a, k) && Distinct(a) && a.allocate(k).Usable? && t.registered == s.registered
    requires t.live == s.live + {a.allocate(k).address}
    ensures Unused(t, a, k + 1)
  {}

  lemma {:induction false} PlaceKeeps(s: State, ps: seq<Pending>, a: Adapters, k: nat)
    requires Core(s) && Suitable(s, Opportunistic, ps, 0) && Unused(s, a, 0) && Distinct(a) && k <= |ps|
    requires forall i :: 0 <= i < |ps| ==> ps[i].origin.Fresh? && a.allocate(i).Usable?
    ensures var t := PlaceFirst(s, ps, a, k); Places(s, t, ChosenSlots(ps, k), k) && Unused(t, a, k)
  {
    hide Core, Unused, ChosenSlots, Suits, AddressAt;
    if k == 0 {
      NoneChosen(ps);
    } else {
      PlaceKeeps(s, ps, a, k - 1);
      PlaceStep(s, PlaceFirst(s, ps, a, k - 1), ps, a, k - 1);
    }
  }

  // Growth takes only empty slots, finds enough of them, and counts what it took.
  lemma GrowKeeps(s: State, n: nat, a: Adapters)
    requires Inv(s) && AnswersNew(s, a) && s.allocation.opportunistic + n <= s.config.maximum.opportunistic
    ensures var (t, r) := Grow(s, n, a);
      && Keeps(s, t) && r != PoolExhausted && (r != Ok ==> t == s)
      && (r == Ok ==> t == s.(slots := t.slots, allocation := Plus(s.allocation, Opportunistic, n), live := t.live))
      && forall i :: 0 <= i < |s.slots| && s.slots[i].address != 0 ==> t.slots[i] == s.slots[i]
  {
    hide Core, EmptyBelow, EmptySet, QuotasOk, ChosenSlots, PlaceFirst, Unused, Distinct;
    EmptySize(s);
    EmptyCount(s.slots, n, |s.slots|);
    assert s.slots[..|s.slots|] == s.slots;
    assert Of(s.allocation, Opportunistic) <= Of(s.config.maximum, Opportunistic);
    assert Of(s.allocation, Committed) <= Of(s.config.maximum, Committed);
    var ps := Tagged(EmptyBelow(s.slots, n, |s.slots|), Fresh);
    if n > 0 && a.scratch && AllocationStop(ps, a, 0) == |ps| {
      EmptySuits(s, Opportunistic, n);
      PlaceKeeps(s, ps, a, n);
      var t := PlaceFirst(s, ps, a, n);
      forall q ensures Of(t.allocation, q) <= Of(t.config.maximum, q) { assert Of(s.allocation, q) <= Of(s.config.maximum, q); }
    }
  }

  // Reclaiming k chunks empties k reclaimable slots and touches nothing else.
  ghost predicate Reclaims(s: State, t: State, k: nat) {
    && Core(t) && |t.slots| == |s.slots|
    && t == s.(slots := t.slots, allocation := Plus(s.allocation, Opportunistic, 0 - k), live := t.live)
    && forall j :: 0 <= j < |s.slots| && !IsReclaimable(s.slots[j]) ==> t.slots[j] == s.slots[j]
  }

  lemma ReclaimBalanced(s: State, t: State, i: nat)
    requires Core(s) && i < |s.slots| && IsReclaimable(s.slots[i])
    requires t == s.(slots := s.slots[i := EMPTY], allocation := Plus(s.allocation, Opportunistic, -1),
                     live := s.live - {s.slots[i].address})
    ensures Balanced(s, t, i)
  {
    hide CountsOk, HeldOk;
    assert SlotOk(s.slots[i]);
    forall q ensures PoolMoved(s, t, s.slots[i], t.slots[i], q) {}
    forall c, q | 0 <= c < |s.connections| ensures HolderMoved(s.connections[c], t.connections[c], s.slots[i], t.slots[i], q) {
      assert s.connections[c].owner != 0;
    }
  }

  lemma {:induction false} ReclaimKeeps(s: State, want: int, i: nat)
    requires Core(s) && i <= |s.slots|
    ensures var (t, k) := ReclaimBelow(s, want, i);
      && Reclaims(s, t, k)
      && (k < want ==> forall j :: 0 <= j < i ==> !IsReclaimable(t.slots[j]))
  {
    hide Core;
    if i > 0 {
      ReclaimKeeps(s, want, i - 1);
      var (t, k) := ReclaimBelow(s, want, i - 1);
      var (u, m) := ReclaimBelow(s, want, i);
      if k < want && IsReclaimable(t.slots[i - 1]) {
        ReclaimBalanced(t, u, i - 1);
        BalancedKeeps(t, u, i - 1);
      }
    }
  }

  lemma ReclaimBounded(s: State, t: State, k: nat)
    requires Inv(s) && Reclaims(s, t, k)
    ensures Keeps(s, t)
  {
    hide Core, QuotasOk;
    forall q ensures Of(t.allocation, q) <= Of(t.config.maximum, q) { assert Of(s.allocation, q) <= Of(s.config.maximum, q); }
  }

  // Reconciling keeps the invariant, never touches committed, assigned or quarantined memory and never runs out of slots.
  lemma ReconcileKeeps(s: State, a: Adapters)
    requires Inv(s) && AnswersNew(s, a)
    ensures var (t, r, change) := Reconcile(s, a);
      && Keeps(s, t) && r != PoolExhausted
      && (forall i :: 0 <= i < |s.slots| && (s.slots[i].pool == Some(Committed) || s.slots[i].owner != 0) ==>
            t.slots[i] == s.slots[i])
      && (change.grown > 0 ==> a.reading.Some? && a.reading.value / GIB >= s.config.reserve + change.grown)
  {
    hide Core, QuotasOk, Grow, ReclaimBelow;
    if a.reading.Some? {
      var target, held := Target(s, a.reading.value), s.allocation.opportunistic;
      AddressedSlots(s);
      if target > held {
        GrowKeeps(s, target - held, a);
      } else {
        var wanted := if target < s.granted.opportunistic then s.granted.opportunistic else target;
        ReclaimKeeps(s, held - wanted, |s.slots|);
        var (t, k) := ReclaimBelow(s, held - wanted, |s.slots|);
        ReclaimBounded(s, t, k);
      }
    }
  }

  lemma AddressedSlots(s: State)
    requires Core(s)
    ensures forall i :: 0 <= i < |s.slots| && (s.slots[i].pool == Some(Committed) || s.slots[i].owner != 0) ==>
      s.slots[i].address != 0
    ensures 0 <= s.granted.opportunistic <= s.allocation.opportunistic
  {
    forall i | 0 <= i < |s.slots| ensures SlotOk(s.slots[i]) {}
    PoolSplits(s, Opportunistic);
    assert Of(s.granted, Opportunistic) == |OwnedSet(s.slots, Opportunistic)|;
    assert Of(s.allocation, Opportunistic) == |PoolSet(s.slots, Opportunistic)|;
  }

  // If host memory moved only by what the first call allocated or freed, a second call changes nothing.
  lemma ReconcileTwice(s: State, a: Adapters, b: Adapters)
    requires Inv(s) && AnswersNew(s, a) && Reconcile(s, a).1 == Ok
    requires var change := Reconcile(s, a).2;
      b.reading == Some(a.reading.value + change.reclaimed * GIB - change.grown * GIB)
    ensures var t := Reconcile(s, a).0;
      Reconcile(t, b).0 == t && Reconcile(t, b).1 == Ok && Reconcile(t, b).2.grown == 0 && Reconcile(t, b).2.reclaimed == 0
  {
    hide Core, QuotasOk, Grow, ReclaimBelow;
    var (t, r, change) := Reconcile(s, a);
    var bytes := a.reading.value;
    var target, held := Target(s, bytes), s.allocation.opportunistic;
    AddressedSlots(s);
    MovedReading(bytes, change.reclaimed, change.grown);
    if target > held {
      GrowKeeps(s, target - held, a);
      assert b.reading.value / GIB == bytes / GIB - (target - held);
      assert Target(t, b.reading.value) == target == t.allocation.opportunistic;
      NothingToReclaim(t, 0);
    } else {
      var wanted := if target < s.granted.opportunistic then s.granted.opportunistic else target;
      ReclaimKeeps(s, held - wanted, |s.slots|);
      var k := ReclaimBelow(s, held - wanted, |s.slots|).1;
      assert Target(t, b.reading.value) == target;
      NothingToReclaim(t, held - wanted - k);
    }
  }

  lemma MovedReading(bytes: nat, up: nat, down: nat)
    ensures (bytes + up * GIB - down * GIB) / GIB == bytes / GIB + up - down
  {}

  lemma NothingToReclaim(s: State, want: int)
    requires want == 0 || forall j :: 0 <= j < |s.slots| ==> !IsReclaimable(s.slots[j])
    ensures ReclaimBelow(s, want, |s.slots|) == (s, 0)
  {
    NoReclaim(s, want, |s.slots|);
  }

  lemma {:induction false} NoReclaim(s: State, want: int, i: nat)
    requires i <= |s.slots| && (want == 0 || forall j :: 0 <= j < |s.slots| ==> !IsReclaimable(s.slots[j]))
    ensures ReclaimBelow(s, want, i) == (s, 0)
  {
    if i > 0 { NoReclaim(s, want, i - 1); }
  }

  // --------------------------------------------------------------------- runs

  datatype Op =
    | DoConnect(consumer: string, owner: nat, limits: Limits, room: bool)
    | DoDisconnect(owner: nat, answers: Adapters)
    | DoAcquire(owner: nat, pool: Pool, count: nat, answers: Adapters)
    | DoRelease(owner: nat, ids: seq<nat>, cause: Cause, answers: Adapters)
    | DoReconcile(answers: Adapters)

  function Step(s: State, op: Op): State {
    match op
    case DoConnect(consumer, owner, limits, room) => Connect(s, consumer, owner, limits, room).0
    case DoDisconnect(owner, a) => Disconnect(s, owner, a).0
    case DoAcquire(owner, p, n, a) => Acquire(s, owner, p, n, a).0
    case DoRelease(owner, ids, cause, a) => Release(s, owner, ids, cause, a).0
    case DoReconcile(a) => Reconcile(s, a).0
  }

  // The adapters never hand out memory or registrations that are in use.
  ghost predicate Possible(s: State, op: Op) {
    (op.DoAcquire? || op.DoReconcile?) ==> AnswersNew(s, op.answers)
  }

  lemma StepKeeps(s: State, op: Op)
    requires Inv(s) && Possible(s, op)
    ensures Keeps(s, Step(s, op))
  {
    hide Inv, Connect, Disconnect, Acquire, Release, Reconcile, AnswersNew;
    match op
    case DoConnect(consumer, owner, limits, room) => ConnectKeeps(s, consumer, owner, limits, room);
    case DoDisconnect(owner, a) => DisconnectKeeps(s, owner, a);
    case DoAcquire(owner, p, n, a) => AcquireKeeps(s, owner, p, n, a);
    case DoRelease(owner, ids, cause, a) => ReleaseCallKeeps(s, owner, ids, cause, a);
    case DoReconcile(a) => ReconcileKeeps(s, a);
  }

  ghost predicate PossibleRun(s: State, ops: seq<Op>)
    decreases |ops|
  {
    ops == [] || (Possible(s, ops[0]) && PossibleRun(Step(s, ops[0]), ops[1..]))
  }

  function Run(s: State, ops: seq<Op>): State
    decreases |ops|
  {
    if ops == [] then s else Run(Step(s, ops[0]), ops[1..])
  }

  // Every run keeps the invariant, and a quarantined chunk stays exactly as it was.
  lemma {:induction false} RunKeeps(s: State, ops: seq<Op>)
    requires Inv(s) && PossibleRun(s, ops)
    ensures Keeps(s, Run(s, ops))
    decreases |ops|
  {
    hide Inv, Step, Possible;
    if ops != [] {
      StepKeeps(s, ops[0]);
      RunKeeps(Step(s, ops[0]), ops[1..]);
      var t, u := Step(s, ops[0]), Run(s, ops);
      forall i | 0 <= i < |s.slots| && s.slots[i].quarantined ensures u.slots[i] == s.slots[i] {
        assert t.slots[i] == s.slots[i];
      }
    }
  }

  lemma CreateInv(c: Config)
    requires ConfigValid(c)
    ensures Inv(Create(c))
  {
    var s := Create(c);
    forall p ensures PoolSet(s.slots, p) == {} && OwnedSet(s.slots, p) == {} {}
    assert QuarantineSet(s.slots) == {} && Addresses(s.slots) == {} && Registrations(s.slots) == {};
  }

  // What the invariant says of every reachable state: counters equal the table, per-connection counts sum to the
  // global ones, owned chunks have a live connection, memory and registration, and no limit is exceeded.
  lemma ReachableAccounts(c: Config, ops: seq<Op>)
    requires ConfigValid(c) && PossibleRun(Create(c), ops)
    ensures var s := Run(Create(c), ops);
      && (forall p :: Of(s.allocation, p) == |PoolSet(s.slots, p)| <= Of(s.config.maximum, p)
                      && Of(s.granted, p) == |OwnedSet(s.slots, p)| == SumOf(s.connections, p))
      && (forall i :: 0 <= i < |s.slots| && s.slots[i].owner != 0 ==>
            Connected(s, s.slots[i].owner) && s.slots[i].address in s.live && s.slots[i].registration in s.registered)
      && (forall k, p :: 0 <= k < |s.connections| ==>
            ConsumerTotal(s.connections, s.connections[k].consumer, p) <= Of(s.connections[k].limits.chunks, p))
      && (forall k :: 0 <= k < |s.connections| ==>
            ConnectionsOf(s.connections, s.connections[k].consumer) <= s.connections[k].limits.connections)
      && s.live == Addresses(s.slots) && s.registered == Registrations(s.slots)
  {
    CreateInv(c);
    RunKeeps(Create(c), ops);
    var s := Run(Create(c), ops);
    hide Run, ConsumerTotal, ConnectionsOf, LimitsAgree;
    forall p ensures Of(s.granted, p) == SumOf(s.connections, p) { GrantsSum(s, p); }
    forall i | 0 <= i < |s.slots| && s.slots[i].owner != 0
      ensures s.slots[i].address in s.live && s.slots[i].registration in s.registered
    {
      assert SlotOk(s.slots[i]);
      HeldSlot(s, i);
    }
  }

  function SumOf(cs: seq<Connection>, p: Pool): int {
    if cs == [] then 0 else SumOf(cs[..|cs| - 1], p) + Of(cs[|cs| - 1].granted, p)
  }

  // The slots owned by the first n connections.
  function OwnedByFirst(s: State, n: nat, p: Pool): set<int>
    requires n <= |s.connections|
  {
    if n == 0 then {} else OwnedByFirst(s, n - 1, p) + OwnedBy(s.slots, s.connections[n - 1].owner, p)
  }

  predicate OwnerAmong(s: State, n: nat, owner: nat)
    requires n <= |s.connections|
  {
    exists k :: 0 <= k < n && s.connections[k].owner == owner
  }

  lemma {:induction false} OwnedByFirstMember(s: State, n: nat, p: Pool, i: int)
    requires n <= |s.connections|
    ensures i in OwnedByFirst(s, n, p) <==> 0 <= i < |s.slots| && s.slots[i].pool == Some(p) && OwnerAmong(s, n, s.slots[i].owner)
  {
    if n > 0 {
      OwnedByFirstMember(s, n - 1, p, i);
      if 0 <= i < |s.slots| {
        assert OwnerAmong(s, n, s.slots[i].owner) <==>
          OwnerAmong(s, n - 1, s.slots[i].owner) || s.connections[n - 1].owner == s.slots[i].owner;
      }
    }
  }

  lemma OwnedApart(s: State, n: nat, p: Pool)
    requires OwnersOk(s) && 0 < n <= |s.connections|
    ensures var before, mine := OwnedByFirst(s, n - 1, p), OwnedBy(s.slots, s.connections[n - 1].owner, p);
      |before + mine| == |before| + |mine|
  {
    hide Connected;
    var before, mine := OwnedByFirst(s, n - 1, p), OwnedBy(s.slots, s.connections[n - 1].owner, p);
    forall i | i in mine ensures i !in before { OwnedByFirstMember(s, n - 1, p, i); }
    Disjoint(before, mine);
  }

  lemma {:induction false} OwnedByFirstSize(s: State, n: nat, p: Pool)
    requires CountsOk(s) && OwnersOk(s) && n <= |s.connections|
    ensures |OwnedByFirst(s, n, p)| == SumOf(s.connections[..n], p)
  {
    hide PoolSet, OwnedSet, QuarantineSet, OwnedBy, OwnersOk;
    if n > 0 {
      OwnedByFirstSize(s, n - 1, p);
      assert s.connections[..n][..n - 1] == s.connections[..n - 1];
      var before, mine := OwnedByFirst(s, n - 1, p), OwnedBy(s.slots, s.connections[n - 1].owner, p);
      OwnedApart(s, n, p);
      assert Of(s.connections[n - 1].granted, p) == |mine|;
    }
  }

  lemma GrantsSum(s: State, p: Pool)
    requires Core(s)
    ensures Of(s.granted, p) == SumOf(s.connections, p)
  {
    hide HeldOk, SlotOk;
    var n := |s.connections|;
    OwnedByFirstSize(s, n, p);
    assert s.connections[..n] == s.connections;
    var owned, all := OwnedSet(s.slots, p), OwnedByFirst(s, n, p);
    forall i ensures i in owned <==> i in all {
      OwnedByFirstMember(s, n, p, i);
      if i in owned { assert Connected(s, s.slots[i].owner); }
    }
    assert owned == all;
  }
}
