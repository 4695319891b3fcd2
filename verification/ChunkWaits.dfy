/**
 Waiting for an eviction to drain and destroying the module: a wait that has
 succeeded is final, and destroying is refused exactly while something is
 outstanding.
 */
module ChunkWaits {
  import opened Options
  import opened SectorBitmap
  import opened ChunkState
  import opened ChunkInvariant
  import opened ChunkRuns
  import opened ChunkTheorems

  // No chunk of the batch has a lease, and no later batch takes its number.
  ghost predicate Quiet(s: State, id: nat) {
    && 0 < id <= s.lastEvictionClaim
    && forall i :: 0 <= i < |s.chunks| && s.chunks[i].evictionClaim == id ==> s.chunks[i].leases == 0
  }

  // Chunks keep their batch or leave it, and no chunk of a batch gains a lease.
  ghost predicate Drains(s: State, t: State) {
    && |t.chunks| == |s.chunks| && s.lastEvictionClaim <= t.lastEvictionClaim
    && forall i :: 0 <= i < |s.chunks| && t.chunks[i].evictionClaim != 0 && t.chunks[i].evictionClaim <= s.lastEvictionClaim ==>
         t.chunks[i].evictionClaim == s.chunks[i].evictionClaim && t.chunks[i].leases <= s.chunks[i].leases
  }

  lemma QuietStays(s: State, t: State, id: nat)
    requires Quiet(s, id) && Drains(s, t)
    ensures Quiet(t, id)
  {}

  lemma AcquireDrains(s: State, home: nat, storage: Lease, r: Request)
    requires Inv(s)
    ensures Drains(s, AcquireLease(s, home, storage, r).0)
  {
    hide ClaimsOk, CountersOk, BatchesOk, GrantsUnique, ValidityOk, DebitsOk, ModeOk, Range, ChunksOk;
    AcquireShape(s, home, storage, r);
    hide AcquireLease;
    var t := AcquireLease(s, home, storage, r).0;
    if AcquireLease(s, home, storage, r).2.Ok? { MappedUnclaimed(s, ChunkOf(r.sector)); }
  }

  lemma MappedUnclaimed(s: State, i: int)
    requires ChunksOk(s) && 0 <= i < |s.chunks| && s.chunks[i].phase.Mapped?
    ensures s.chunks[i].evictionClaim == 0
  {
    hide LiveSlot;
    assert ChunkOk(s, i);
  }

  lemma LeaseCallsDrain(s: State, home: nat, l: Lease, outcome: Outcome)
    ensures Drains(s, ResolveLease(s, home, l, outcome).0) && Drains(s, ReleaseLease(s, home, l).0)
  {
    hide Range, CheckLease;
    LeaseChecked(s, home, l);
  }

  lemma ClaimDrains(s: State, draws: seq<nat>)
    requires Inv(s)
    ensures s.sampleSize > 0 && Drains(s, NextMapping(s, draws).0)
  {
    hide Inv, Available, Live, Digest, SomePending, Eligible, Choose, Aggregate, FirstWanted;
    SampleSizePositive(s);
  }

  lemma FinishDrains(s: State, c: MappingClaim, action: FinishAction, h: Handle, grants: seq<Grant>)
    requires Inv(s)
    ensures Drains(s, FinishMapping(s, c, action, h, grants).0)
  {
    hide ChunksOk, CountersOk, BatchesOk, GrantsUnique, ValidityOk, DebitsOk, ModeOk, ClaimIsActive, Digest;
    FinishMeans(s, c, action, h, grants);
    if FinishMapping(s, c, action, h, grants).1.Committed? {
      CommitShape(s, c, h, grants);
      hide FinishMapping;
    } else if FinishMapping(s, c, action, h, grants).1.Aborted? {
      hide Live;
    } else {
      FinishUnchanged(s, c, action, h, grants);
    }
  }

  lemma BeginDrains(s: State, h: Handle, ids: seq<nat>, prior: EvictionClaim)
    ensures Drains(s, BeginEviction(s, h, ids, prior).0)
  {
    hide CheckEviction, SelectBatch, Live, Digest;
  }

  lemma FinishEvictionDrains(s: State, c: EvictionClaim)
    requires Inv(s)
    ensures Drains(s, FinishEviction(s, c).0)
  {
    hide ClaimsOk, CountersOk, BatchesOk, GrantsUnique, ValidityOk, DebitsOk, ModeOk, ChunksOk, CheckEviction, Drained, ResetMembers;
    if FinishEviction(s, c).1.Ok? {
      FinishShape(s, c);
      hide EvictedBy, FinishEviction;
    }
  }

  lemma FailDrains(s: State, h: Handle)
    requires Inv(s)
    ensures Drains(s, FailProvider(s, h).0)
  {
    hide Inv, FailProvider, MappedSet, AssignedSet, EvictionHeads, MappingSet, Invalidate, Rank;
    if FailProvider(s, h).1.FailureApplied? {
      FailShape(s, h);
      hide OwnedBy;
    } else {
      FailRefused(s, h);
    }
  }

  lemma StepDrains(w: World, op: Op)
    requires WInv(w) && w.s.sampleSize > 0
    ensures Drains(w.s, Step(w, op).s)
  {
    hide WInv, Inv, NextMapping, FinishMapping, BeginEviction, FinishEviction, FailProvider, AcquireLease, ResolveLease,
      ReleaseLease, Observe, NoteActivity, CheckEviction, Drained, Drains;
    WorldInv(w);
    match op
    case DoNextMapping(draws) => ClaimDrains(w.s, draws);
    case DoFinishMapping(c, action, h, grants) => FinishDrains(w.s, c, action, h, grants);
    case DoBeginEviction(h, ids, prior) => BeginDrains(w.s, h, ids, prior);
    case DoFinishEviction(c) => FinishEvictionDrains(w.s, c);
    case DoFail(h) => FailDrains(w.s, h);
    case DoAcquire(home, r) => AcquireDrains(w.s, home, StorageAt(w, home), r);
    case DoResolve(home, outcome) => LeaseCallsDrain(w.s, home, StorageAt(w, home), outcome);
    case DoRelease(home) => LeaseCallsDrain(w.s, home, StorageAt(w, home), Success);
    case DoObserve(h, o) => ObserveDrains(w.s, h, o);
    case DoActivity(start, count, write) => ActivityDrains(w.s, start, count, write);
    case _ => SameChunksDrain(w.s, Step(w, op).s);
  }

  lemma SameChunksDrain(s: State, t: State)
    requires t.chunks == s.chunks && t.lastEvictionClaim == s.lastEvictionClaim
    ensures Drains(s, t)
  {}

  lemma ActivityDrains(s: State, start: nat, count: nat, write: bool)
    ensures Drains(s, NoteActivity(s, start, count, write))
  {}

  lemma ObserveDrains(s: State, h: Handle, o: Observation)
    ensures Drains(s, Observe(s, h, o).0)
  {
    hide ObservationValid, Debits, AssignedTo;
  }

  // A wait that has succeeded is final: after any further calls, finishing that eviction is not refused for leases.
  lemma {:induction false} WaitedStaysDrained(w: World, claim: EvictionClaim, ops: seq<Op>)
    requires WInv(w) && Quiet(w.s, claim.id)
    ensures FinishEviction(Run(w, ops).s, claim).1 != EBusy
    decreases |ops|
  {
    hide WInv, Step, Quiet, FinishEviction;
    if ops == [] {
      QuietFinishes(w.s, claim);
    } else {
      StepKeeps(w, ops[0]);
      StepDrains(w, ops[0]);
      QuietStays(w.s, Step(w, ops[0]).s, claim.id);
      WaitedStaysDrained(Step(w, ops[0]), claim, ops[1..]);
    }
  }

  lemma QuietFinishes(s: State, claim: EvictionClaim)
    requires Quiet(s, claim.id)
    ensures FinishEviction(s, claim).1 != EBusy
  {
    hide Digest, Live;
  }

  // That is what a waiting thread has seen when it is told to go on.
  lemma WaitSeesQuiet(s: State, claim: EvictionClaim, now: Option<nat>, deadline: nat)
    requires Inv(s) && PollWait(s, claim, now, deadline).1 == Some(Ok)
    ensures Quiet(s, claim.id)
  {
    hide Digest, Live, ClaimsOk, CountersOk, BatchesOk, GrantsUnique, ValidityOk, DebitsOk, ModeOk, ChunksOk;
    EvictedBatch(s, claim);
    var i :| i in EvictedBy(s.chunks, claim.id);
    EvictingNumbered(s, i);
  }

  // Destroying is refused exactly while a chunk is being mapped or evicted, a lease is unreleased or a thread waits.
  lemma DestroyRefusedExactly(c: Config, epoch: nat, ops: seq<Op>)
    requires ConfigAccepted(c) && 0 < epoch < ID_MAX
    ensures var w := Reach(c, epoch, ops);
      Destroy(w.s).1 <==>
        && (forall i :: 0 <= i < |w.s.chunks| ==> !w.s.chunks[i].phase.Mapping? && !w.s.chunks[i].phase.Evicting?)
        && (forall home :: home in w.storage ==> !Held(w.storage[home])) && w.waiting == []
  {
    hide Reach, WInv;
    var w := Reach(c, epoch, ops);
    WaitersCounted(w);
    NoneOutstanding(w.s);
    NoneHeld(w);
    hide Inv, LeasesOk;
  }

  lemma WaitersCounted(w: World)
    requires WInv(w)
    ensures Inv(w.s) && LeasesOk(w) && w.s.waits == |w.waiting|
  {}

  // A batch that is open has a first chunk, so the claim counters are zero only when no chunk is on the way.
  lemma NoneOutstanding(s: State)
    requires Inv(s)
    ensures s.mappingClaims == 0 && s.evictionClaims == 0 <==>
      forall i :: 0 <= i < |s.chunks| ==> !s.chunks[i].phase.Mapping? && !s.chunks[i].phase.Evicting?
  {
    hide Digest, LeaseSum, BatchesOk, GrantsUnique, ValidityOk, DebitsOk, ModeOk;
    if i :| 0 <= i < |s.chunks| && s.chunks[i].phase.Mapping? { assert i in MappingSet(s.chunks); }
    forall i | 0 <= i < |s.chunks| ensures s.chunks[i].evictionClaim != 0 <==> s.chunks[i].phase.Evicting? { assert ChunkOk(s, i); }
    if i :| 0 <= i < |s.chunks| && s.chunks[i].phase.Evicting? {
      var h := FirstOfBatch(s.chunks, i);
      assert h in EvictionHeads(s.chunks);
    }
    if s.mappingClaims != 0 { var i := Pick(MappingSet(s.chunks)); }
    if s.evictionClaims != 0 {
      var i := Pick(EvictionHeads(s.chunks));
    }
  }

  lemma {:induction false} FirstOfBatch(cs: seq<Chunk>, i: nat) returns (h: nat)
    requires i < |cs|
    ensures h < |cs| && cs[h].evictionClaim == cs[i].evictionClaim && HeadsEviction(cs, h)
  {
    h := i;
    if j :| 0 <= j < i && cs[j].evictionClaim == cs[i].evictionClaim { h := FirstOfBatch(cs, j); }
  }

  lemma {:induction false} LeaseSumZero(cs: seq<Chunk>)
    ensures LeaseSum(cs) == 0 <==> forall i :: 0 <= i < |cs| ==> cs[i].leases == 0
  {
    if cs != [] {
      var n := |cs| - 1;
      LeaseSumZero(cs[..n]);
      assert forall i :: 0 <= i < n ==> cs[..n][i] == cs[i];
    }
  }

  lemma NoneHeld(w: World)
    requires WInv(w)
    ensures w.s.leases == 0 <==> forall home :: home in w.storage ==> !Held(w.storage[home])
  {
    hide Inv, LeaseSum, HeldOn;
    MappingCount(w.s);
    LeasesCounted(w.s);
    LeaseSumZero(w.s.chunks);
    if home :| home in w.storage && Held(w.storage[home]) {
      assert LeaseOk(w, home);
      HeldMember(w, w.storage[home].chunk, home);
    }
    if i :| 0 <= i < |w.s.chunks| && w.s.chunks[i].leases != 0 {
      var home := Pick(HeldOn(w, i));
      HeldMember(w, i, home);
    }
  }

  lemma LeasesCounted(s: State)
    requires Inv(s)
    ensures s.leases == LeaseSum(s.chunks)
  {}
}
