/**
 Acquiring and reconciling: which chunks are chosen, that the invariant is kept
 by installing, quarantining, growing and reclaiming, and what each leaves alone.
 */
module MemoryGrants {
  import opened Options
  import opened MemoryState
  import opened MemoryInvariant

  // ------------------------------------------------------------- the selection

  lemma {:induction false} FreeCount(slots: seq<Slot>, p: Pool, want: nat, i: nat)
    requires i <= |slots|
    ensures |FreeBelow(slots, p, want, i)| == Least(want, |FreeSet(slots[..i], p)|)
  {
    hide IsFree;
    if i == 0 {
      assert FreeSet(slots[..0], p) == {};
    } else {
      FreeCount(slots, p, want, i - 1);
      var before, after := FreeSet(slots[..i - 1], p), FreeSet(slots[..i], p);
      if IsFree(slots[i - 1], p) {
        assert after == before + {i - 1};
      } else {
        assert after == before;
      }
    }
  }

  lemma {:induction false} EmptyCount(slots: seq<Slot>, want: nat, i: nat)
    requires i <= |slots|
    ensures |EmptyBelow(slots, want, i)| == Least(want, |EmptySet(slots[..i])|)
  {
    if i == 0 {
      assert EmptySet(slots[..0]) == {};
    } else {
      EmptyCount(slots, want, i - 1);
      var before, after := EmptySet(slots[..i - 1]), EmptySet(slots[..i]);
      if slots[i - 1].address == 0 {
        assert after == before + {i - 1};
      } else {
        assert after == before;
      }
    }
  }

  lemma {:induction false} CountConcat(xs: seq<Pending>, ys: seq<Pending>, o: Origin)
    ensures CountOf(xs + ys, o) == CountOf(xs, o) + CountOf(ys, o)
  {
    if ys == [] {
      assert xs + ys == xs;
    } else {
      var n := |ys| - 1;
      assert (xs + ys)[..|xs| + n] == xs + ys[..n];
      CountConcat(xs, ys[..n], o);
    }
  }

  lemma {:induction false} CountUniform(ps: seq<Pending>, origin: Origin, o: Origin)
    requires forall k :: 0 <= k < |ps| ==> ps[k].origin == origin
    ensures CountOf(ps, o) == if o == origin then |ps| else 0
  {
    if ps != [] { CountUniform(ps[..|ps| - 1], origin, o); }
  }

  // How many chunks of each origin a request for n would use.
  function SameCount(s: State, p: Pool, n: nat): int { Least(n, |FreeSet(s.slots, p)|) }
  function ConvertedCount(s: State, p: Pool, n: nat): int {
    if p.Committed? then Least(n - SameCount(s, p, n), |FreeSet(s.slots, Opportunistic)|) else 0
  }
  function FreshCount(s: State, p: Pool, n: nat): int {
    Least(n - SameCount(s, p, n) - ConvertedCount(s, p, n), |EmptySet(s.slots)|)
  }

  lemma SelectionCounts(s: State, p: Pool, n: nat)
    ensures var ps := Selection(s.slots, p, n);
      && CountOf(ps, SamePool) == SameCount(s, p, n) && CountOf(ps, Converted) == ConvertedCount(s, p, n)
      && CountOf(ps, Fresh) == FreshCount(s, p, n)
      && |ps| == SameCount(s, p, n) + ConvertedCount(s, p, n) + FreshCount(s, p, n)
  {
    hide FreeSet, EmptySet, FreeBelow, EmptyBelow, CountOf;
    var slots, m := s.slots, |s.slots|;
    assert slots[..m] == slots;
    FreeCount(slots, p, n, m);
    var same := FreeBelow(slots, p, n, m);
    if p.Committed? { FreeCount(slots, Opportunistic, n - |same|, m); }
    var converted := if p.Committed? then FreeBelow(slots, Opportunistic, n - |same|, m) else [];
    EmptyCount(slots, n - |same| - |converted|, m);
    var created := EmptyBelow(slots, n - |same| - |converted|, m);
    var a, b, c := Tagged(same, SamePool), Tagged(converted, Converted), Tagged(created, Fresh);
    forall o ensures CountOf(a + b + c, o) == CountOf(a, o) + CountOf(b, o) + CountOf(c, o) {
      CountConcat(a + b, c, o);
      CountConcat(a, b, o);
    }
    forall o ensures CountOf(a, o) == if o == SamePool then |a| else 0 { CountUniform(a, SamePool, o); }
    forall o ensures CountOf(b, o) == if o == Converted then |b| else 0 { CountUniform(b, Converted, o); }
    forall o ensures CountOf(c, o) == if o == Fresh then |c| else 0 { CountUniform(c, Fresh, o); }
  }

  // Each chosen position suits its origin.
  ghost predicate Suits(s: State, p: Pool, x: Pending) {
    && x.index < |s.slots|
    && match x.origin
       case SamePool => IsFree(s.slots[x.index], p)
       case Converted => p.Committed? && IsFree(s.slots[x.index], Opportunistic)
       case Fresh => s.slots[x.index].address == 0
  }

  ghost predicate Suitable(s: State, p: Pool, ps: seq<Pending>, k: nat) {
    && (forall i :: k <= i < |ps| ==> Suits(s, p, ps[i]))
    && (forall i :: 0 <= i < |ps| ==> ps[i].index < |s.slots|)
    && forall i, j :: 0 <= i < j < |ps| ==> ps[i].index != ps[j].index
  }

  lemma SelectionSuitable(s: State, p: Pool, n: nat)
    ensures Suitable(s, p, Selection(s.slots, p, n), 0)
  {
    hide FreeBelow, EmptyBelow, Suitable;
    var same := FreeBelow(s.slots, p, n, |s.slots|);
    var converted := if p.Committed? then FreeBelow(s.slots, Opportunistic, n - |same|, |s.slots|) else [];
    var created := EmptyBelow(s.slots, n - |same| - |converted|, |s.slots|);
    FreeSuits(s, p, p, n, SamePool);
    if p.Committed? { FreeSuits(s, p, Opportunistic, n - |same|, Converted); } else { PartSuits(s, p, [], Converted); }
    EmptySuits(s, p, n - |same| - |converted|);
    PartsSuit(s, p, Tagged(same, SamePool), Tagged(converted, Converted));
    PartsSuit(s, p, Tagged(same, SamePool) + Tagged(converted, Converted), Tagged(created, Fresh));
  }

  lemma FreeSuits(s: State, p: Pool, q: Pool, n: nat, origin: Origin)
    requires (origin.SamePool? && q == p) || (origin.Converted? && p.Committed? && q.Opportunistic?)
    ensures Suitable(s, p, Tagged(FreeBelow(s.slots, q, n, |s.slots|), origin), 0)
  {
    hide FreeBelow, Suitable, IsFree;
    PartSuits(s, p, FreeBelow(s.slots, q, n, |s.slots|), origin);
  }

  lemma EmptySuits(s: State, p: Pool, n: nat)
    ensures Suitable(s, p, Tagged(EmptyBelow(s.slots, n, |s.slots|), Fresh), 0)
  {
    hide EmptyBelow, Suitable;
    PartSuits(s, p, EmptyBelow(s.slots, n, |s.slots|), Fresh);
  }

  lemma PartSuits(s: State, p: Pool, indices: seq<nat>, origin: Origin)
    requires forall i :: 0 <= i < |indices| ==> Suits(s, p, Pending(indices[i], origin))
    requires forall i, j :: 0 <= i < j < |indices| ==> indices[i] < indices[j]
    ensures Suitable(s, p, Tagged(indices, origin), 0)
  {
    hide Suits;
    var ps := Tagged(indices, origin);
    forall i | 0 <= i < |ps| ensures Suits(s, p, ps[i]) && ps[i].index < |s.slots| { SuitsInTable(s, p, ps[i]); }
  }

  lemma SuitsInTable(s: State, p: Pool, x: Pending)
    requires Suits(s, p, x)
    ensures x.index < |s.slots|
  {}

  // Positions of different origins differ, because no slot suits two origins.
  lemma PartsSuit(s: State, p: Pool, xs: seq<Pending>, ys: seq<Pending>)
    requires Suitable(s, p, xs, 0) && Suitable(s, p, ys, 0)
    requires forall i, j :: 0 <= i < |xs| && 0 <= j < |ys| ==> xs[i].origin != ys[j].origin
    ensures Suitable(s, p, xs + ys, 0)
  {
    hide Suits;
    forall i, j | 0 <= i < |xs| && 0 <= j < |ys| ensures xs[i].index != ys[j].index { DifferentOrigins(s, p, xs[i], ys[j]); }
  }

  lemma DifferentOrigins(s: State, p: Pool, x: Pending, y: Pending)
    requires Suits(s, p, x) && Suits(s, p, y) && x.origin != y.origin
    ensures x.index != y.index
  {}

  // -------------------------------------------------------------- adapters' answers

  // The answers from position k on are still unused.
  ghost predicate Unused(s: State, a: Adapters, k: nat) {
    && (forall i: nat :: k <= i && !a.allocate(i).Refused? ==> a.allocate(i).address != 0 && a.allocate(i).address !in s.live)
    && (forall i: nat :: k <= i && a.register(i) != 0 ==> a.register(i) !in s.registered)
  }

  ghost predicate Distinct(a: Adapters) {
    && (forall i: nat, j: nat :: i < j && !a.allocate(i).Refused? && !a.allocate(j).Refused? ==>
          a.allocate(i).address != a.allocate(j).address)
    && (forall i: nat, j: nat :: i < j && a.register(i) != 0 ==> a.register(i) != a.register(j))
  }

  // ---------------------------------------------------------------- quarantining

  lemma QuarantineBalanced(s: State, ps: seq<Pending>, p: Pool, a: Adapters, k: nat)
    requires Core(s) && k < |ps| && Suits(s, p, ps[k]) && Unused(s, a, k)
    requires a.register(k) != 0 && (ps[k].origin.Fresh? ==> !a.allocate(k).Refused?)
    ensures Balanced(s, QuarantineOne(s, ps, p, a, k), ps[k].index)
  {
    hide CountsOk;
    var i := ps[k].index;
    var t := QuarantineOne(s, ps, p, a, k);
    assert SlotOk(s.slots[i]);
    HeldSlot(s, i);
    forall q ensures PoolMoved(s, t, s.slots[i], t.slots[i], q) {}
    forall c, q | 0 <= c < |s.connections| ensures HolderMoved(s.connections[c], t.connections[c], s.slots[i], t.slots[i], q) {
      assert s.connections[c].owner != 0;
    }
  }

  // The chosen slots whose deregistration failed.
  function StuckSlots(ps: seq<Pending>, a: Adapters, k: nat): set<int> {
    set i | 0 <= i < k && i < |ps| && a.stuck(i) :: ps[i].index
  }

  lemma StuckNext(ps: seq<Pending>, a: Adapters, k: nat)
    requires k < |ps| && forall i, j :: 0 <= i < j < |ps| ==> ps[i].index != ps[j].index
    ensures StuckSlots(ps, a, k + 1) == StuckSlots(ps, a, k) + if a.stuck(k) then {ps[k].index} else {}
    ensures ps[k].index !in StuckSlots(ps, a, k)
  {
    var before := StuckSlots(ps, a, k);
    forall x | x in before ensures x in StuckSlots(ps, a, k + 1) {
      var i :| 0 <= i < k && a.stuck(i) && ps[i].index == x;
    }
  }

  // Exactly the chosen slots whose deregistration failed change: they are quarantined, unowned.
  ghost predicate Quarantines(s: State, t: State, stuck: set<int>) {
    && Core(t) && |t.slots| == |s.slots|
    && t == s.(slots := t.slots, allocation := t.allocation, quarantined := t.quarantined, live := t.live,
               registered := t.registered)
    && (forall j :: 0 <= j < |s.slots| && j !in stuck ==> t.slots[j] == s.slots[j])
    && (forall j :: 0 <= j < |s.slots| && j in stuck ==> t.slots[j].quarantined && t.slots[j].owner == 0)
  }

  lemma UnusedAfter(s: State, ps: seq<Pending>, p: Pool, a: Adapters, k: nat)
    requires k < |ps| && ps[k].index < |s.slots| && Unused(s, a, k) && Distinct(a)
    requires a.register(k) != 0 && (ps[k].origin.Fresh? ==> !a.allocate(k).Refused?)
    ensures Unused(QuarantineOne(s, ps, p, a, k), a, k + 1)
  {}

  lemma {:induction false} QuarantineKeeps(s: State, ps: seq<Pending>, p: Pool, a: Adapters, k: nat)
    requires Core(s) && Suitable(s, p, ps, 0) && Unused(s, a, 0) && Distinct(a) && k <= |ps|
    requires forall i :: 0 <= i < k ==> a.register(i) != 0
    requires forall i :: 0 <= i < |ps| && ps[i].origin.Fresh? ==> a.allocate(i).Usable?
    ensures var t := QuarantineFirst(s, ps, p, a, k); Quarantines(s, t, StuckSlots(ps, a, k)) && Unused(t, a, k)
  {
    hide Core, Unused, StuckSlots, QuarantineOne;
    if k == 0 {
      assert StuckSlots(ps, a, 0) == {} by { NoneStuck(ps, a); }
    } else {
      QuarantineKeeps(s, ps, p, a, k - 1);
      StuckNext(ps, a, k - 1);
      QuarantineStep(s, QuarantineFirst(s, ps, p, a, k - 1), ps, p, a, k - 1);
    }
  }

  lemma NoneStuck(ps: seq<Pending>, a: Adapters)
    ensures StuckSlots(ps, a, 0) == {}
  {}

  lemma QuarantineStep(s: State, t: State, ps: seq<Pending>, p: Pool, a: Adapters, k: nat)
    requires Suitable(s, p, ps, 0) && k < |ps| && Distinct(a) && a.register(k) != 0
    requires ps[k].origin.Fresh? ==> a.allocate(k).Usable?
    requires Quarantines(s, t, StuckSlots(ps, a, k)) && Unused(t, a, k)
    ensures var u := if a.stuck(k) then QuarantineOne(t, ps, p, a, k) else t;
      Quarantines(s, u, StuckSlots(ps, a, k + 1)) && Unused(u, a, k + 1)
  {
    hide Core, StuckSlots, Balanced, Distinct, IsFree;
    StuckNext(ps, a, k);
    if a.stuck(k) {
      var i := ps[k].index;
      assert Suits(s, p, ps[k]) && t.slots[i] == s.slots[i];
      SuitsUnowned(t, p, ps[k]);
      QuarantineBalanced(t, ps, p, a, k);
      BalancedKeeps(t, QuarantineOne(t, ps, p, a, k), i);
      UnusedAfter(t, ps, p, a, k);
    }
  }

  lemma SuitsUnowned(s: State, p: Pool, x: Pending)
    requires Core(s) && Suits(s, p, x)
    ensures s.slots[x.index].owner == 0
  {
    assert SlotOk(s.slots[x.index]);
  }

  lemma CountNext(ps: seq<Pending>, k: nat, o: Origin)
    requires k < |ps|
    ensures CountOf(ps[..k + 1], o) == CountOf(ps[..k], o) + One(ps[k].origin == o)
  {
    assert ps[..k + 1][..k] == ps[..k];
  }

  lemma {:induction false} CountSum(ps: seq<Pending>, k: nat)
    requires k <= |ps|
    ensures CountOf(ps[..k], SamePool) + CountOf(ps[..k], Converted) + CountOf(ps[..k], Fresh) == k
    ensures k == |ps| ==> ps[..k] == ps
  {
    if k > 0 {
      CountSum(ps, k - 1);
      CountNext(ps, k - 1, SamePool);
      CountNext(ps, k - 1, Converted);
      CountNext(ps, k - 1, Fresh);
      match ps[k - 1].origin
      case SamePool =>
      case Converted =>
      case Fresh =>
    }
  }

  lemma {:induction false} CountGrows(ps: seq<Pending>, k: nat, o: Origin)
    requires k <= |ps|
    ensures CountOf(ps[..k], o) <= CountOf(ps, o)
    decreases |ps| - k
  {
    if k == |ps| {
      assert ps[..k] == ps;
    } else {
      CountNext(ps, k, o);
      CountGrows(ps, k + 1, o);
    }
  }

  lemma {:induction false} QuarantineAllocation(s: State, ps: seq<Pending>, p: Pool, a: Adapters, k: nat)
    requires k <= |ps| && forall i :: 0 <= i < |ps| ==> ps[i].index < |s.slots|
    ensures var t := QuarantineFirst(s, ps, p, a, k);
      exists m :: 0 <= m <= CountOf(ps[..k], Fresh) && t.allocation == Plus(s.allocation, p, m)
  {
    hide CountOf;
    if k == 0 {
      assert s.allocation == Plus(s.allocation, p, 0);
      assert CountOf(ps[..0], Fresh) >= 0;
    } else {
      QuarantineAllocation(s, ps, p, a, k - 1);
      CountNext(ps, k - 1, Fresh);
      var t := QuarantineFirst(s, ps, p, a, k - 1);
      var m :| 0 <= m <= CountOf(ps[..k - 1], Fresh) && t.allocation == Plus(s.allocation, p, m);
      assert Plus(t.allocation, p, 1) == Plus(s.allocation, p, m + 1);
    }
  }

  // ------------------------------------------------------------------ installing

  lemma InstallBalanced(s: State, c: nat, ps: seq<Pending>, p: Pool, a: Adapters, k: nat)
    requires Core(s) && c < |s.connections| && k < |ps| && Suits(s, p, ps[k]) && Unused(s, a, k)
    requires a.register(k) != 0 && (ps[k].origin.Fresh? ==> !a.allocate(k).Refused?)
    ensures Balanced(s, InstallOne(s, c, ps, p, a, k), ps[k].index)
  {
    hide CountsOk;
    var i := ps[k].index;
    var t := InstallOne(s, c, ps, p, a, k);
    assert SlotOk(s.slots[i]);
    HeldSlot(s, i);
    forall q ensures PoolMoved(s, t, s.slots[i], t.slots[i], q) {}
    forall d, q | 0 <= d < |s.connections| ensures HolderMoved(s.connections[d], t.connections[d], s.slots[i], t.slots[i], q) {
      assert s.connections[d].owner != 0 && (d != c ==> s.connections[d].owner != s.connections[c].owner);
    }
    assert Connected(s, s.connections[c].owner);
  }

  function ChosenSlots(ps: seq<Pending>, k: nat): set<int> {
    set i | 0 <= i < k && i < |ps| :: ps[i].index
  }

  lemma ChosenNext(ps: seq<Pending>, k: nat)
    requires k < |ps| && forall i, j :: 0 <= i < j < |ps| ==> ps[i].index != ps[j].index
    ensures ChosenSlots(ps, k + 1) == ChosenSlots(ps, k) + {ps[k].index}
    ensures ps[k].index !in ChosenSlots(ps, k)
  {
    var before := ChosenSlots(ps, k);
    forall x | x in before ensures x in ChosenSlots(ps, k + 1) {
      var i :| 0 <= i < k && ps[i].index == x;
    }
  }

  // The chosen slots belong to the connection, and only they changed.
  ghost predicate Installs(s: State, t: State, c: nat, p: Pool, chosen: set<int>, k: nat)
    requires c < |s.connections|
  {
    && Core(t) && |t.slots| == |s.slots| && t.config == s.config && t.healthy == s.healthy
    && t.connections == s.connections[c := s.connections[c].(granted := Plus(s.connections[c].granted, p, k))]
    && (forall j :: 0 <= j < |s.slots| && j !in chosen ==> t.slots[j] == s.slots[j])
    && (forall j :: 0 <= j < |s.slots| && j in chosen ==>
          t.slots[j].owner == s.connections[c].owner && t.slots[j].pool == Some(p) && !s.slots[j].quarantined)
  }

  lemma UnusedAfterInstall(s: State, c: nat, ps: seq<Pending>, p: Pool, a: Adapters, k: nat)
    requires c < |s.connections| && k < |ps| && ps[k].index < |s.slots| && Unused(s, a, k) && Distinct(a)
    requires a.register(k) != 0 && (ps[k].origin.Fresh? ==> !a.allocate(k).Refused?)
    ensures Unused(InstallOne(s, c, ps, p, a, k), a, k + 1)
  {}

  lemma {:induction false} InstallKeeps(s: State, c: nat, ps: seq<Pending>, p: Pool, a: Adapters, k: nat)
    requires Core(s) && c < |s.connections| && Suitable(s, p, ps, 0) && Unused(s, a, 0) && Distinct(a) && k <= |ps|
    requires forall i :: 0 <= i < |ps| ==> a.register(i) != 0
    requires forall i :: 0 <= i < |ps| && ps[i].origin.Fresh? ==> a.allocate(i).Usable?
    ensures var t := InstallFirst(s, c, ps, p, a, k); Installs(s, t, c, p, ChosenSlots(ps, k), k) && Unused(t, a, k)
  {
    hide Core, Unused, ChosenSlots, InstallOne;
    if k == 0 {
      NoneChosen(ps);
      assert s.connections == s.connections[c := s.connections[c].(granted := Plus(s.connections[c].granted, p, 0))];
    } else {
      InstallKeeps(s, c, ps, p, a, k - 1);
      ChosenNext(ps, k - 1);
      InstallStep(s, InstallFirst(s, c, ps, p, a, k - 1), c, ps, p, a, k - 1);
    }
  }

  lemma NoneChosen(ps: seq<Pending>)
    ensures ChosenSlots(ps, 0) == {}
  {}

  lemma InstallStep(s: State, t: State, c: nat, ps: seq<Pending>, p: Pool, a: Adapters, k: nat)
    requires c < |s.connections| && Suitable(s, p, ps, 0) && k < |ps| && Distinct(a) && a.register(k) != 0
    requires ps[k].origin.Fresh? ==> a.allocate(k).Usable?
    requires Installs(s, t, c, p, ChosenSlots(ps, k), k) && Unused(t, a, k)
    ensures var u := InstallOne(t, c, ps, p, a, k);
      Installs(s, u, c, p, ChosenSlots(ps, k + 1), k + 1) && Unused(u, a, k + 1)
  {
    hide Core, ChosenSlots, Balanced, Distinct, IsFree;
    ChosenNext(ps, k);
    var i := ps[k].index;
    assert Suits(s, p, ps[k]) && t.slots[i] == s.slots[i];
    SuitsUnowned(t, p, ps[k]);
    InstallBalanced(t, c, ps, p, a, k);
    BalancedKeeps(t, InstallOne(t, c, ps, p, a, k), i);
    UnusedAfterInstall(t, c, ps, p, a, k);
    SuitsUsable(t, p, ps[k]);
  }

  lemma SuitsUsable(s: State, p: Pool, x: Pending)
    requires Core(s) && Suits(s, p, x)
    ensures !s.slots[x.index].quarantined
  {
    assert SlotOk(s.slots[x.index]);
  }

  lemma NoneCounted(ps: seq<Pending>)
    ensures forall o :: CountOf(ps[..0], o) == 0
  {}

  // The pool counts after installing: converted chunks leave the opportunistic pool.
  lemma {:induction false} InstallAllocation(s: State, c: nat, ps: seq<Pending>, p: Pool, a: Adapters, k: nat)
    requires c < |s.connections| && k <= |ps| && forall i :: 0 <= i < |ps| ==> ps[i].index < |s.slots|
    ensures InstallFirst(s, c, ps, p, a, k).allocation ==
      Plus(Plus(s.allocation, Opportunistic, 0 - CountOf(ps[..k], Converted)), p, k - CountOf(ps[..k], SamePool))
  {
    hide CountOf;
    if k == 0 {
      NoneCounted(ps);
    } else {
      InstallAllocation(s, c, ps, p, a, k - 1);
      CountNext(ps, k - 1, Converted);
      CountNext(ps, k - 1, SamePool);
    }
  }

  lemma {:induction false} InstallLeaves(s: State, c: nat, ps: seq<Pending>, p: Pool, a: Adapters, k: nat, i: nat)
    requires c < |s.connections| && k <= |ps| && i < |s.slots| && forall j :: 0 <= j < |ps| ==> ps[j].index < |s.slots|
    requires forall j :: 0 <= j < k ==> ps[j].index != i
    ensures InstallFirst(s, c, ps, p, a, k).slots[i] == s.slots[i]
  {
    if k > 0 { InstallLeaves(s, c, ps, p, a, k - 1, i); }
  }

  // ------------------------------------------------------------------- acquiring

  ghost predicate Admitted(s: State, c: nat, p: Pool, n: nat) {
    && c < |s.connections| && |Selection(s.slots, p, n)| == n
    && n <= Of(s.connections[c].limits.chunks, p) - ConsumerTotal(s.connections, s.connections[c].consumer, p)
    && n - CountOf(Selection(s.slots, p, n), SamePool) <= Of(s.config.maximum, p) - Of(s.allocation, p)
  }

  lemma InstallBounded(s: State, c: nat, p: Pool, n: nat, a: Adapters)
    requires Inv(s) && Admitted(s, c, p, n)
    requires var ps := Selection(s.slots, p, n);
      Suitable(s, p, ps, 0) && Installs(s, InstallFirst(s, c, ps, p, a, n), c, p, ChosenSlots(ps, n), n)
    ensures Inv(InstallFirst(s, c, Selection(s.slots, p, n), p, a, n))
  {
    hide Core, Selection, InstallFirst, ConsumerTotal, ConnectionsOf, ChosenSlots, CountOf, Suits;
    var ps := Selection(s.slots, p, n);
    var t := InstallFirst(s, c, ps, p, a, n);
    InstallAllocation(s, c, ps, p, a, n);
    CountSum(ps, n);
    QuotasMove(s.connections, c, p, n);
    forall q ensures Of(t.allocation, q) <= Of(t.config.maximum, q) { assert Of(s.allocation, q) <= Of(s.config.maximum, q); }
  }

  lemma QuarantineBounded(s: State, p: Pool, n: nat, a: Adapters, k: nat)
    requires Inv(s) && k <= |Selection(s.slots, p, n)| == n
    requires n - CountOf(Selection(s.slots, p, n), SamePool) <= Of(s.config.maximum, p) - Of(s.allocation, p)
    requires var ps := Selection(s.slots, p, n);
      Suitable(s, p, ps, 0) && Quarantines(s, QuarantineFirst(s, ps, p, a, k), StuckSlots(ps, a, k))
    ensures Inv(QuarantineFirst(s, Selection(s.slots, p, n), p, a, k))
  {
    hide Core, Selection, QuarantineFirst, QuotasOk, StuckSlots, CountOf, Suits;
    var ps := Selection(s.slots, p, n);
    var t := QuarantineFirst(s, ps, p, a, k);
    QuarantineAllocation(s, ps, p, a, k);
    CountGrows(ps, k, Fresh);
    CountSum(ps, n);
    forall q ensures Of(t.allocation, q) <= Of(t.config.maximum, q) { assert Of(s.allocation, q) <= Of(s.config.maximum, q); }
  }

  // The adapters' answers are new to the manager.
  ghost predicate AnswersNew(s: State, a: Adapters) { Unused(s, a, 0) && Distinct(a) }

  lemma AdmitMeans(s: State, c: nat, p: Pool, n: nat, reading: Option<nat>)
    requires c < |s.connections| && Admit(s, c, p, n, reading) == Ok
    ensures Admitted(s, c, p, n)
  {
    hide Selection, ConsumerTotal, CountOf;
  }

  lemma SlotsKept(s: State, t: State, changed: set<int>)
    requires Inv(t) && |t.slots| == |s.slots| && t.config == s.config
    requires forall j :: 0 <= j < |s.slots| && j !in changed ==> t.slots[j] == s.slots[j]
    requires forall j :: 0 <= j < |s.slots| && j in changed ==> !s.slots[j].quarantined
    ensures Keeps(s, t)
  {
    hide Inv;
  }

  lemma {:induction false} StuckUsable(s: State, ps: seq<Pending>, p: Pool, a: Adapters, k: nat)
    requires Core(s) && Suitable(s, p, ps, 0) && k <= |ps|
    ensures forall j :: 0 <= j < |s.slots| && j in StuckSlots(ps, a, k) ==> !s.slots[j].quarantined
  {
    forall j | 0 <= j < |s.slots| && j in StuckSlots(ps, a, k) ensures !s.slots[j].quarantined {
      var i :| 0 <= i < k && ps[i].index == j;
      SuitsUsable(s, p, ps[i]);
    }
  }

  lemma AcquireKeeps(s: State, owner: nat, p: Pool, n: nat, a: Adapters)
    requires Inv(s) && AnswersNew(s, a)
    ensures Keeps(s, Acquire(s, owner, p, n, a).0)
  {
    hide Inv, Admit, Selection, QuarantineFirst, InstallFirst, GrantsOf, Unused, Distinct, StuckSlots, ChosenSlots, Suitable;
    var found := FindConnection(s.connections, owner, 0);
    if owner != 0 && n != 0 && a.scratch && found.Some? && Admit(s, found.value, p, n, a.reading) == Ok {
      var c := found.value;
      var ps := Selection(s.slots, p, n);
      AdmitMeans(s, c, p, n, a.reading);
      SelectionSuitable(s, p, n);
      SelectionInTable(s.slots, p, n);
      var last := RegistrationStop(|ps|, a, 0);
      if AllocationStop(ps, a, 0) == |ps| {
        if last < |ps| { AcquireQuarantines(s, c, p, n, a, last); } else { AcquireInstalls(s, c, p, n, a); }
      }
    }
  }

  lemma AcquireQuarantines(s: State, c: nat, p: Pool, n: nat, a: Adapters, last: nat)
    requires Inv(s) && AnswersNew(s, a) && Admitted(s, c, p, n) && last <= n
    requires forall i :: 0 <= i < last ==> a.register(i) != 0
    requires forall i :: 0 <= i < n && Selection(s.slots, p, n)[i].origin.Fresh? ==> a.allocate(i).Usable?
    ensures var ps := Selection(s.slots, p, n);
      && Suitable(s, p, ps, 0)
      && Keeps(s, QuarantineFirst(s, ps, p, a, last)) && Keeps(s, QuarantineFirst(s, ps, p, a, last).(healthy := false))
      && Quarantines(s, QuarantineFirst(s, ps, p, a, last), StuckSlots(ps, a, last))
  {
    hide Core, Selection, QuarantineFirst, Unused, Distinct, StuckSlots, QuotasOk, CountOf;
    var ps := Selection(s.slots, p, n);
    SelectionSuitable(s, p, n);
    QuarantineKeeps(s, ps, p, a, last);
    QuarantineBounded(s, p, n, a, last);
    StuckUsable(s, ps, p, a, last);
    var t := QuarantineFirst(s, ps, p, a, last);
    SlotsKept(s, t, StuckSlots(ps, a, last));
    Unhealthy(t);
  }

  lemma AcquireInstalls(s: State, c: nat, p: Pool, n: nat, a: Adapters)
    requires Inv(s) && AnswersNew(s, a) && Admitted(s, c, p, n)
    requires forall i :: 0 <= i < n ==> a.register(i) != 0
    requires forall i :: 0 <= i < n && Selection(s.slots, p, n)[i].origin.Fresh? ==> a.allocate(i).Usable?
    ensures var ps := Selection(s.slots, p, n);
      && Suitable(s, p, ps, 0) && Keeps(s, InstallFirst(s, c, ps, p, a, n))
      && Installs(s, InstallFirst(s, c, ps, p, a, n), c, p, ChosenSlots(ps, n), n)
  {
    hide Core, Selection, InstallFirst, Unused, Distinct, ChosenSlots, QuotasOk, CountOf, ConsumerTotal;
    var ps := Selection(s.slots, p, n);
    SelectionSuitable(s, p, n);
    InstallKeeps(s, c, ps, p, a, n);
    InstallBounded(s, c, p, n, a);
    SlotsKept(s, InstallFirst(s, c, ps, p, a, n), ChosenSlots(ps, n));
  }
}
