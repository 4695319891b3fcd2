/**
 Results about the Remote Chunk module: what holds after every sequence of
 calls, and when repeating a finished call is recognised.
 */
module ChunkTheorems {
  import opened SectorBitmap
  import opened ChunkState
  import opened ChunkInvariant
  import opened ChunkRuns
  import ChunkProgress

  // ----------------------------------------------------------- leases and memory

  // The Provider with this handle has failed.
  predicate Failed(s: State, h: Handle) { 1 <= h.slot <= |s.providers| && s.providers[h.slot - 1].failed }

  // A lease resolves as outdated only once the Provider it was granted on has failed.
  lemma StaleOnlyAfterFailure(c: Config, epoch: nat, ops: seq<Op>, home: nat, outcome: Outcome)
    requires ConfigAccepted(c) && 0 < epoch < ID_MAX
    ensures var w := Reach(c, epoch, ops);
      ResolveLease(w.s, home, StorageAt(w, home), outcome).3.Outdated? ==>
        home in w.issued && w.issued[home].Transport? && Failed(w.s, w.issued[home].provider)
  {
    hide Inv, Reach;
    var w := Reach(c, epoch, ops);
    assert home in w.storage ==> LeaseOk(w, home);
  }

  // An unreleased lease has lost its mapping exactly when its Provider has failed; until then its chunk is still backed by
  // the very memory the lease was granted on.
  lemma LeaseLosesOnlyItsProvider(c: Config, epoch: nat, ops: seq<Op>, home: nat)
    requires ConfigAccepted(c) && 0 < epoch < ID_MAX
    ensures var w := Reach(c, epoch, ops);
      home in w.storage && Held(w.storage[home]) ==>
        && home in w.issued && w.issued[home].Transport? && w.storage[home].chunk < |w.s.chunks|
        && var l, memory := w.storage[home], w.issued[home];
           var chunk := w.s.chunks[l.chunk];
           && (chunk.generation != l.generation <==> Failed(w.s, memory.provider))
           && (chunk.generation == l.generation ==> IsAssigned(chunk) && memory == TransportTo(chunk, l.sector, l.chunk))
  {
    hide Inv, Reach, Live;
    var w := Reach(c, epoch, ops);
    if home in w.storage && Held(w.storage[home]) {
      assert LeaseOk(w, home);
      if w.s.chunks[w.storage[home].chunk].generation == w.storage[home].generation {
        AssignedLive(w.s, w.storage[home].chunk);
      }
    }
  }

  lemma AssignedLive(s: State, i: int)
    requires Inv(s) && 0 <= i < |s.chunks| && IsAssigned(s.chunks[i])
    ensures var h := s.chunks[i].provider; 1 <= h.slot <= |s.providers| && !s.providers[h.slot - 1].failed
  {
    hide Digest;
    assert ChunkOk(s, i);
  }

  // When an eviction finishes, no unreleased lease can still target memory it retires: not by naming a chunk of the batch,
  // and not by having been granted the Provider chunk that backs one.
  lemma EvictionRetiresUnleasedMemory(c: Config, epoch: nat, ops: seq<Op>, claim: EvictionClaim, home: nat, i: int)
    requires ConfigAccepted(c) && 0 < epoch < ID_MAX
    requires FinishEviction(Reach(c, epoch, ops).s, claim).1.Ok? && i in EvictedBy(Reach(c, epoch, ops).s.chunks, claim.id)
    ensures var w := Reach(c, epoch, ops);
      0 <= i < |w.s.chunks| &&
      (home in w.storage && Held(w.storage[home]) ==>
         && home in w.issued && w.issued[home].Transport? && w.storage[home].chunk != i
         && (w.issued[home].provider == w.s.chunks[i].provider ==> w.issued[home].providerChunk != w.s.chunks[i].providerChunk))
  {
    hide Reach, WInv, FinishEviction, EvictedBy;
    var w := Reach(c, epoch, ops);
    DrainedBatch(w.s, claim, i);
    if home in w.storage && Held(w.storage[home]) { HeldElsewhere(w, home, i); }
  }

  // A held lease targets other memory than a chunk without leases has.
  lemma HeldElsewhere(w: World, home: nat, i: int)
    requires WInv(w) && home in w.storage && Held(w.storage[home])
    requires 0 <= i < |w.s.chunks| && w.s.chunks[i].leases == 0 && IsAssigned(w.s.chunks[i])
    ensures home in w.issued && w.issued[home].Transport? && w.storage[home].chunk != i
    ensures w.issued[home].provider == w.s.chunks[i].provider ==> w.issued[home].providerChunk != w.s.chunks[i].providerChunk
  {
    hide Inv, TouchesOk, EndedOk, HeldOn;
    var l := w.storage[home];
    assert LeaseOk(w, home);
    HeldMember(w, i, home);
    assert |HeldOn(w, i)| == 0;
    AssignedLive(w.s, i);
    if w.s.chunks[l.chunk].generation == l.generation { OneBacksAnother(w.s, i, l.chunk); }
  }

  lemma DrainedBatch(s: State, claim: EvictionClaim, i: int)
    requires FinishEviction(s, claim).1.Ok? && i in EvictedBy(s.chunks, claim.id)
    ensures 0 <= i < |s.chunks| && s.chunks[i].leases == 0 && s.chunks[i].phase.Evicting?
  {
    hide CheckEviction;
    EvictedBatch(s, claim);
  }

  lemma OneBacksAnother(s: State, i: int, j: int)
    requires Inv(s) && 0 <= i < |s.chunks| && 0 <= j < |s.chunks| && i != j && IsAssigned(s.chunks[i]) && IsAssigned(s.chunks[j])
    ensures s.chunks[i].provider == s.chunks[j].provider ==> s.chunks[i].providerChunk != s.chunks[j].providerChunk
  {
    hide ChunksOk, ClaimsOk, CountersOk, BatchesOk, DebitsOk;
    if j < i { assert s.chunks[j].provider == s.chunks[i].provider ==> s.chunks[j].providerChunk != s.chunks[i].providerChunk; }
  }

  // A sector is valid exactly when the last call that decided it was a successful write resolve, and then
  // its chunk is mapped or being evicted.
  lemma ValidityIsLastSuccess(c: Config, epoch: nat, ops: seq<Op>, sector: int)
    requires ConfigAccepted(c) && 0 < epoch < ID_MAX
    ensures var w := Reach(c, epoch, ops);
      && (sector in w.s.valid <==> LastGood(w.touches, sector))
      && (LastGood(w.touches, sector) ==> 0 <= ChunkOf(sector) < |w.s.chunks| && IsAssigned(w.s.chunks[ChunkOf(sector)]))
  {
    hide Reach;
    var w := Reach(c, epoch, ops);
    assert sector in w.s.valid <==> LastGood(w.touches, sector);
  }

  // A read lease is granted only where every sector was last written successfully; its memory lies in the grant.
  lemma ReadsSeeWrittenSectors(c: Config, epoch: nat, ops: seq<Op>, home: nat, r: Request, sector: int)
    requires ConfigAccepted(c) && 0 < epoch < ID_MAX
    ensures var w := Reach(c, epoch, ops);
      var (_, _, status, transport) := AcquireLease(w.s, home, StorageAt(w, home), r);
      status.Ok? && r.direction.Read? && sector in Range(r.sector, r.bytes / SECTOR_BYTES) ==>
        && LastGood(w.touches, sector)
        && ChunkOf(sector) == ChunkOf(r.sector) < |w.s.chunks| && w.s.chunks[ChunkOf(r.sector)].phase.Mapped?
  {
    hide Reach;
    var w := Reach(c, epoch, ops);
    AcquireShape(w.s, home, StorageAt(w, home), r);
    RangeExact(w.s, r);
    assert sector in w.s.valid <==> LastGood(w.touches, sector);
    hide Inv, AcquireLease;
  }

  // ------------------------------------------------------------------- counters

  // Every counter equals what the chunk table says, and the table names only live Providers, once each.
  lemma CountersAreDerived(c: Config, epoch: nat, ops: seq<Op>)
    requires ConfigAccepted(c) && 0 < epoch < ID_MAX
    ensures var s := Reach(c, epoch, ops).s;
      && s.assignedCount == |AssignedSet(s.chunks)| && s.usableCount == |MappedSet(s.chunks)|
      && s.mappingClaims == |MappingSet(s.chunks)| <= 1 && s.evictionClaims == |EvictionHeads(s.chunks)|
      && s.leases == LeaseSum(s.chunks)
      && (forall i :: 0 <= i < |s.chunks| && !s.chunks[i].phase.Unmapped? ==> Live(s, s.chunks[i].provider))
      && (forall i, j ::
            (0 <= i < j < |s.chunks| && IsAssigned(s.chunks[i]) && IsAssigned(s.chunks[j])
             && s.chunks[i].provider == s.chunks[j].provider) ==>
            s.chunks[i].providerChunk != s.chunks[j].providerChunk)
      && SnapshotConsistent(s)
  {
    hide Reach;
    var s := Reach(c, epoch, ops).s;
    InvMeans(s);
  }

  lemma InvMeans(s: State)
    requires Inv(s)
    ensures |MappingSet(s.chunks)| <= 1
    ensures forall i :: 0 <= i < |s.chunks| && !s.chunks[i].phase.Unmapped? ==> Live(s, s.chunks[i].provider)
    ensures SnapshotConsistent(s)
  {
    hide Digest, LeaseSum, EvictionHeads;
    if MappingSet(s.chunks) != {} {
      var i := Pick(MappingSet(s.chunks));
      assert MappingSet(s.chunks) == {i};
    }
    forall i | 0 <= i < |s.chunks| && !s.chunks[i].phase.Unmapped? ensures Live(s, s.chunks[i].provider) {
      assert ChunkOk(s, i);
      LiveIffSlot(s, s.chunks[i].provider);
    }
  }

  // The Provider call is exhausted only by its 64-bit counters.
  lemma FailureExhaustsOnlyByCounters(c: Config, epoch: nat, ops: seq<Op>, h: Handle)
    requires ConfigAccepted(c) && 0 < epoch < ID_MAX
    ensures var s := Reach(c, epoch, ops).s;
      FailProvider(s, h).1.FailureExhausted? <==>
        Live(s, h) && (s.lastGeneration + Debits(s.chunks, h) > ID_MAX || s.lastTransition >= ID_MAX)
  {
    hide Reach;
    var s := Reach(c, epoch, ops).s;
    LiveIffSlot(s, h);
    if LiveSlot(s, h) {
      FailExhausted(s, h);
    } else {
      hide Inv;
    }
  }

  // A Provider never holds more chunks than it held at its last observation plus what it then reported.
  lemma DebitsWithinReports(c: Config, epoch: nat, ops: seq<Op>, p: nat)
    requires ConfigAccepted(c) && 0 < epoch < ID_MAX && p < |Reach(c, epoch, ops).s.providers|
    ensures var s := Reach(c, epoch, ops).s;
      var q := s.providers[p];
      if q.observed then q.failed || Debits(s.chunks, q.handle) <= q.observedDebits + q.reported
      else Debits(s.chunks, q.handle) == 0
  {
    hide Reach;
    assert DebitOk(Reach(c, epoch, ops).s, p);
  }

  // ---------------------------------------------------------------- mapping claims

  // Claims end once each, in the order they were opened; only the newest can still be open.
  lemma ClaimsEndOnce(c: Config, epoch: nat, ops: seq<Op>)
    requires ConfigAccepted(c) && 0 < epoch < ID_MAX
    ensures var w := Reach(c, epoch, ops);
      && |w.ended| + w.s.mappingClaims == w.s.lastMappingClaim
      && (forall k :: 0 <= k < |w.ended| ==> w.ended[k] == k + 1)
      && (w.s.mappingClaims != 0 ==> w.s.activeClaim.id == w.s.lastMappingClaim)
  {
    hide Reach;
    var w := Reach(c, epoch, ops);
    if w.s.mappingClaims != 0 {
      hide Digest;
      var i := Pick(MappingSet(w.s.chunks));
      assert ChunkOk(w.s, i);
    }
  }

  // Asking for a mapping is never answered as invalid while claim numbers last: a Remote-Only module with chunks
  // still missing has an unmapped one, and the Provider placement picks is live.
  lemma NextMappingNeverInvalid(s: State, draws: seq<nat>)
    requires Inv(s) && s.lastMappingClaim < ID_MAX && s.lastTransition < ID_MAX
    ensures !NextMapping(s, draws).1.NextInvalid?
  {
    hide Inv, Available, SomePending, Eligible, Aggregate, Choose, FirstWanted, Live, ClaimOpened, NewClaim;
    UsableBounded(s);
    if s.mode.RemoteOnly? && s.mappingClaims == 0 && s.usableCount < |s.chunks| {
      ChunkProgress.SomeWanted(s);
    }
    if Eligible(s, |s.providers|) != [] { ChosenIsLive(s, draws); }
  }

  lemma UsableBounded(s: State)
    requires Inv(s)
    ensures s.usableCount <= |s.chunks| && s.sampleSize > 0
  {
    BoundedSize(MappedSet(s.chunks), |s.chunks|);
  }

  lemma ChosenIsLive(s: State, draws: seq<nat>)
    requires Inv(s) && Eligible(s, |s.providers|) != [] && s.sampleSize > 0
    ensures Live(s, s.providers[Choose(s, Eligible(s, |s.providers|), draws)].handle)
  {
    hide Available, Eligible, Choose, Live;
    PlacementChooses(s, draws);
    var p := Choose(s, Eligible(s, |s.providers|), draws);
    hide Inv;
    RoomForOne(s, p);
    ChunkProgress.RosterLive(s, p);
  }

  // --------------------------------------------------------- repeating a finish

  // The module still recognises this call as the one it finished last.
  ghost predicate Remembered(s: State, c: MappingClaim, action: FinishAction, h: Handle, grants: seq<Grant>) {
    && ClaimWellFormed(c) && c == s.endedClaim && h == c.provider && c.count <= |s.chunks| && LiveSlot(s, h)
    && s.endedAction == (if action.Commit? then CommitTerminal else AbortTerminal)
    && (action.Abort? ==> grants == [])
    && (action.Commit? ==> |grants| == 1 && GrantsShaped(s, c, grants) && GrantMatches(s, c, grants[0]))
  }

  lemma RememberedRepeats(s: State, c: MappingClaim, action: FinishAction, h: Handle, grants: seq<Grant>)
    requires Inv(s) && Remembered(s, c, action, h, grants)
    ensures FinishMapping(s, c, action, h, grants) == (s, Duplicate)
  {
    hide Digest, ChunksOk, CountersOk, BatchesOk, GrantsUnique, ValidityOk, DebitsOk, ModeOk, ClaimIsActive, ApplyGrants;
    LiveIffSlot(s, h);
  }

  lemma FinishedIsRemembered(s: State, c: MappingClaim, action: FinishAction, h: Handle, grants: seq<Grant>)
    requires Inv(s)
    requires var r := FinishMapping(s, c, action, h, grants).1; r.Committed? || r.Aborted?
    ensures Remembered(FinishMapping(s, c, action, h, grants).0, c, action, h, grants)
  {
    hide Digest, ChunksOk, CountersOk, BatchesOk, GrantsUnique, ValidityOk, DebitsOk, ModeOk, ClaimIsActive;
    FinishMeans(s, c, action, h, grants);
    LiveIffSlot(s, h);
    if FinishMapping(s, c, action, h, grants).1.Committed? {
      CommitShape(s, c, h, grants);
    }
  }

  // The calls that make the module forget a finished claim.
  ghost predicate Supersedes(s: State, op: Op, c: MappingClaim)
    requires s.sampleSize > 0
  {
    match op
    case DoNextMapping(draws) => NextMapping(s, draws).1.RequestMapping?
    case DoBeginEviction(h, ids, prior) => BeginEviction(s, h, ids, prior).1.Ok?
    case DoFail(h) => h == c.provider && FailProvider(s, h).1.FailureApplied?
    case _ => false
  }

  // A call that keeps the finished claim, its Provider and the placement of every mapped chunk of that Provider.
  ghost predicate KeepsFinished(s: State, t: State, h: Handle) {
    && |t.chunks| == |s.chunks| && t.endedClaim == s.endedClaim && t.endedAction == s.endedAction
    && (LiveSlot(s, h) ==> LiveSlot(t, h))
    && (forall i :: 0 <= i < |s.chunks| && s.chunks[i].phase.Mapped? && s.chunks[i].provider == h ==>
          t.chunks[i] == s.chunks[i].(activity := t.chunks[i].activity, leases := t.chunks[i].leases))
  }

  lemma RememberedKeeps(s: State, t: State, c: MappingClaim, action: FinishAction, h: Handle, grants: seq<Grant>)
    requires Remembered(s, c, action, h, grants) && KeepsFinished(s, t, h)
    ensures Remembered(t, c, action, h, grants)
  {
    hide Digest, LiveSlot;
  }

  lemma NoOpenClaim(s: State, c: MappingClaim, action: FinishAction, h: Handle, grants: seq<Grant>)
    requires Inv(s) && s.endedClaim != NO_CLAIM
    ensures FinishMapping(s, c, action, h, grants).0 == s
  {
    hide ChunksOk, CountersOk, BatchesOk, GrantsUnique, ValidityOk, DebitsOk, ModeOk, GrantsShaped, GrantAvailable,
      GrantMatches, Live, ApplyGrants, Unclaim, Digest;
    assert s.activeClaim == NO_CLAIM;
  }

  lemma EvictionKeepsFinished(s: State, c: EvictionClaim, h: Handle)
    requires Inv(s)
    ensures KeepsFinished(s, FinishEviction(s, c).0, h)
  {
    hide CheckEviction, Drained, ResetMembers, ChunksOk, ClaimsOk, CountersOk, BatchesOk, GrantsUnique, ValidityOk, ModeOk,
      DebitsOk;
    if FinishEviction(s, c).1.Ok? { FinishShape(s, c); }
  }

  lemma OtherFailureKeepsFinished(s: State, g: Handle, h: Handle)
    requires Inv(s) && s.endedClaim != NO_CLAIM && g != h
    ensures KeepsFinished(s, FailProvider(s, g).0, h)
  {
    hide FailProvider, ChunksOk, CountersOk, BatchesOk, GrantsUnique, ValidityOk, ModeOk, DebitsOk, MappedSet, AssignedSet,
      EvictionHeads, OwnedBy, MappingSet, Invalidate;
    if FailProvider(s, g).1.FailureApplied? {
      FailShape(s, g);
      assert OwnedBy(s.chunks, g) * MappingSet(s.chunks) == {};
      forall i | 0 <= i < |s.chunks| && s.chunks[i].provider == h ensures i !in OwnedBy(s.chunks, g) {
        OwnedMember(s.chunks, g, i);
      }
    } else {
      FailRefused(s, g);
    }
  }

  // Placements, claims and the roster stay as they were.
  ghost predicate Calm(s: State, t: State) {
    && Alike(s.chunks, t.chunks) && t.endedClaim == s.endedClaim && t.endedAction == s.endedAction
    && t.epoch == s.epoch && SameLiveness(s, t)
  }

  lemma CalmKeepsFinished(s: State, t: State, h: Handle)
    requires Calm(s, t)
    ensures KeepsFinished(s, t, h)
  {}

  lemma AcquireIsCalm(s: State, home: nat, storage: Lease, r: Request)
    ensures Calm(s, AcquireLease(s, home, storage, r).0)
  {
    hide Range;
  }

  lemma ResolveIsCalm(s: State, home: nat, l: Lease, outcome: Outcome)
    ensures Calm(s, ResolveLease(s, home, l, outcome).0) && Calm(s, ReleaseLease(s, home, l).0)
  {
    hide Range;
  }

  lemma ObserveIsCalm(s: State, h: Handle, o: Observation)
    ensures Calm(s, Observe(s, h, o).0)
  {
    hide ObservationValid, Debits, AssignedTo;
  }

  lemma ActivityIsCalm(s: State, start: nat, count: nat, write: bool)
    ensures Calm(s, NoteActivity(s, start, count, write))
  {}

  lemma CalmStep(w: World, op: Op)
    requires w.s.sampleSize > 0 && !op.DoNextMapping? && !op.DoFinishMapping? && !op.DoBeginEviction?
    requires !op.DoFinishEviction? && !op.DoFail?
    ensures Calm(w.s, Step(w, op).s)
  {
    hide AcquireLease, ResolveLease, ReleaseLease, Observe, NoteActivity, CheckEviction, Drained, Calm, StepFail,
      StepFinishMapping, FinishEviction, BeginEviction, NextMapping;
    match op
    case DoAcquire(home, r) => AcquireIsCalm(w.s, home, StorageAt(w, home), r);
    case DoResolve(home, outcome) => ResolveIsCalm(w.s, home, StorageAt(w, home), outcome);
    case DoRelease(home) => ResolveIsCalm(w.s, home, StorageAt(w, home), Success);
    case DoObserve(h, o) => ObserveIsCalm(w.s, h, o);
    case DoActivity(start, count, write) => ActivityIsCalm(w.s, start, count, write);
    case DoSetHot(_) => SameChunksCalm(w.s, Step(w, op).s);
    case DoEnterWait(_, _) => SameChunksCalm(w.s, Step(w, op).s);
    case DoPollWait(_, _, _) => SameChunksCalm(w.s, Step(w, op).s);
    case DoQuiesce => SameChunksCalm(w.s, Step(w, op).s);
    case DoDestroy => SameChunksCalm(w.s, Step(w, op).s);
    case _ =>
  }

  lemma SameChunksCalm(s: State, t: State)
    requires t.chunks == s.chunks && t.providers == s.providers && t.epoch == s.epoch
    requires t.endedClaim == s.endedClaim && t.endedAction == s.endedAction
    ensures Calm(s, t)
  {}

  lemma NextMappingUnchanged(s: State, draws: seq<nat>)
    requires s.sampleSize > 0 && !NextMapping(s, draws).1.RequestMapping?
    ensures NextMapping(s, draws).0 == s
  {
    hide Available, Live, Digest, SomePending, Eligible, Choose, Aggregate, FirstWanted;
  }

  lemma BeginUnchanged(s: State, h: Handle, ids: seq<nat>, prior: EvictionClaim)
    requires !BeginEviction(s, h, ids, prior).1.Ok?
    ensures BeginEviction(s, h, ids, prior).0 == s
  {
    hide CheckEviction, SelectBatch, Live, Digest;
  }

  lemma StepKeepsFinished(w: World, op: Op, c: MappingClaim)
    requires WInv(w) && w.s.endedClaim == c != NO_CLAIM
    requires w.s.sampleSize > 0 && !Supersedes(w.s, op, c)
    ensures KeepsFinished(w.s, Step(w, op).s, c.provider)
  {
    hide WInv, Inv, NextMapping, FinishMapping, BeginEviction, FinishEviction, FailProvider, StepAcquire, StepResolve,
      StepRelease, Observe, NoteActivity, OwnedBy, Calm;
    WorldInv(w);
    match op
    case DoNextMapping(draws) => NextMappingUnchanged(w.s, draws);
    case DoFinishMapping(d, action, h, grants) => NoOpenClaim(w.s, d, action, h, grants);
    case DoBeginEviction(h, ids, prior) => BeginUnchanged(w.s, h, ids, prior);
    case DoFinishEviction(d) => EvictionKeepsFinished(w.s, d, c.provider);
    case DoFail(h) =>
      if h == c.provider { FailRefused(w.s, h); } else { OtherFailureKeepsFinished(w.s, h, c.provider); }
    case _ =>
      CalmStep(w, op);
      CalmKeepsFinished(w.s, Step(w, op).s, c.provider);
  }

  lemma WorldInv(w: World)
    requires WInv(w)
    ensures Inv(w.s) && w.s.sampleSize > 0
  {}

  // No call of the run makes the module forget the claim.
  ghost predicate Undisturbed(w: World, ops: seq<Op>, c: MappingClaim)
    requires WInv(w)
    decreases |ops|
  {
    ops == [] ||
    (StepKeeps(w, ops[0]); !Supersedes(w.s, ops[0], c) && Undisturbed(Step(w, ops[0]), ops[1..], c))
  }

  // Repeating a finished commit or abort is answered as a duplicate, and changes nothing, after any further calls
  // until another claim opens, an eviction begins or the claim's Provider fails.
  lemma {:induction false} RepeatIsDuplicate(
    w: World, c: MappingClaim, action: FinishAction, h: Handle, grants: seq<Grant>, ops: seq<Op>)
    requires WInv(w) && Remembered(w.s, c, action, h, grants) && Undisturbed(w, ops, c)
    ensures var s := Run(w, ops).s; FinishMapping(s, c, action, h, grants) == (s, Duplicate)
    decreases |ops|
  {
    hide FinishMapping, Remembered, KeepsFinished, Inv, LeasesOk, TouchesOk, EndedOk, Step, Supersedes;
    if ops == [] {
      RememberedRepeats(w.s, c, action, h, grants);
    } else {
      StepKeeps(w, ops[0]);
      RememberedIs(w.s, c, action, h, grants);
      StepKeepsFinished(w, ops[0], c);
      RememberedKeeps(w.s, Step(w, ops[0]).s, c, action, h, grants);
      RepeatIsDuplicate(Step(w, ops[0]), c, action, h, grants, ops[1..]);
    }
  }

  lemma RememberedIs(s: State, c: MappingClaim, action: FinishAction, h: Handle, grants: seq<Grant>)
    requires Remembered(s, c, action, h, grants)
    ensures s.endedClaim == c != NO_CLAIM && h == c.provider
  {
    hide GrantsShaped, GrantMatches;
  }
}
