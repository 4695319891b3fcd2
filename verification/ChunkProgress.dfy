/**
 Progress of a Remote-Only reservation: once the reported memory covers every
 chunk, asking and committing in turn maps one chunk per round until all are mapped.
 */
module ChunkProgress {
  import opened Options
  import opened SectorBitmap
  import opened ChunkState
  import opened ChunkInvariant

  // One round: the random numbers placement draws, and what the Provider grants.
  datatype Turn = Turn(draws: seq<nat>, providerChunk: nat, address: nat, key: nat)

  // The reported memory covers the chunks still unmapped, and enough 64-bit numbers remain.
  ghost predicate Reserving(s: State) {
    && Inv(s) && s.mode.RemoteOnly? && !s.quiescing && s.mappingClaims == 0 && !SomePending(s)
    && s.assignedCount + Aggregate(s, |s.providers|) >= |s.chunks|
    && var left := |s.chunks| - s.usableCount;
       s.lastMappingClaim + left <= ID_MAX && s.lastTransition + left <= ID_MAX && s.lastGeneration + left <= ID_MAX
  }

  // The granted memory is usable and backs no other chunk.
  ghost predicate Grantable(s: State, turn: Turn, h: Handle) {
    && turn.address != 0 && turn.key != 0 && turn.address <= ID_MAX - (CHUNK_BYTES - 1)
    && forall i :: 0 <= i < |s.chunks| && IsAssigned(s.chunks[i]) && s.chunks[i].provider == h ==>
         s.chunks[i].providerChunk != turn.providerChunk
  }

  function GrantOf(turn: Turn, chunk: nat): Grant { Grant(chunk, turn.providerChunk, turn.address, turn.key) }

  // Ask for a mapping and commit the grant.
  ghost function Round(s: State, turn: Turn): (t: State)
    requires Inv(s)
    ensures Inv(t)
  {
    var (t, r) := NextMapping(s, turn.draws);
    NextMappingKeeps(s, turn.draws);
    if r.RequestMapping? then
      FinishMappingKeeps(t, r.claim, Commit, r.provider, [GrantOf(turn, r.chunk)]);
      FinishMapping(t, r.claim, Commit, r.provider, [GrantOf(turn, r.chunk)]).0
    else t
  }

  ghost function Reserve(s: State, turns: seq<Turn>): (t: State)
    requires Inv(s)
    ensures Inv(t)
    decreases |turns|
  {
    if turns == [] then s else Reserve(Round(s, turns[0]), turns[1..])
  }

  ghost predicate GoodTurn(s: State, turn: Turn)
    requires Inv(s)
  {
    var r := NextMapping(s, turn.draws).1;
    r.RequestMapping? ==> Grantable(s, turn, r.provider)
  }

  ghost predicate GoodTurns(s: State, turns: seq<Turn>)
    requires Inv(s)
    decreases |turns|
  {
    turns == [] || (GoodTurn(s, turns[0]) && GoodTurns(Round(s, turns[0]), turns[1..]))
  }

  // ---------------------------------------------------------------- capacity

  lemma {:induction false} AggregateEligible(s: State, n: nat)
    requires n <= |s.providers| && Aggregate(s, n) > 0
    ensures Eligible(s, n) != []
  {
    if Available(s, n - 1) == 0 { AggregateEligible(s, n - 1); }
  }

  // Taking one chunk from Provider p lowers the aggregate by at most one.
  lemma {:induction false} AggregateDrops(s: State, t: State, p: nat, n: nat)
    requires n <= |s.providers| == |t.providers|
    requires forall i :: 0 <= i < n && i != p ==> Available(t, i) == Available(s, i)
    requires p < n ==> Available(t, p) + 1 >= Available(s, p)
    ensures Aggregate(t, n) + (if p < n then 1 else 0) >= Aggregate(s, n)
  {
    if n > 0 { AggregateDrops(s, t, p, n - 1); }
  }

  lemma GrownOwned(cs: seq<Chunk>, i: int, c: Chunk, h: Handle)
    requires 0 <= i < |cs| && cs[i].phase.Unmapped? && c.phase.Mapped?
    ensures OwnedBy(cs[i := c], h) == OwnedBy(cs, h) + (if c.provider == h then {i} else {})
    ensures i !in OwnedBy(cs, h)
  {}

  lemma AvailableAfter(s: State, t: State, p: nat, chunk: nat, i: nat)
    requires Inv(s) && t.providers == s.providers && p < |s.providers| && i < |s.providers|
    requires chunk < |s.chunks| == |t.chunks| && s.chunks[chunk].phase.Unmapped? && t.chunks[chunk].phase.Mapped?
    requires t.chunks == s.chunks[chunk := t.chunks[chunk]] && t.chunks[chunk].provider == s.providers[p].handle
    ensures if i == p then Available(t, i) + 1 >= Available(s, i) else Available(t, i) == Available(s, i)
  {
    hide OwnedBy, ChunksOk, ClaimsOk, CountersOk, BatchesOk, GrantsUnique, ValidityOk, ModeOk, Reconcile;
    var q := s.providers[i];
    GrownOwned(s.chunks, chunk, t.chunks[chunk], q.handle);
    assert DebitOk(s, i);
    OwnedBounded(s.chunks, q.handle);
    OwnedBounded(t.chunks, q.handle);
    ReconcileExact(q.reported, q.observedDebits, Debits(s.chunks, q.handle));
    ReconcileExact(q.reported, q.observedDebits, Debits(t.chunks, q.handle));
  }

  // ------------------------------------------------------------------- rounds

  lemma UsableIsAssigned(s: State)
    requires Inv(s) && s.mode.RemoteOnly?
    ensures s.usableCount == s.assignedCount <= |s.chunks|
  {
    assert MappedSet(s.chunks) == AssignedSet(s.chunks);
    BoundedSize(AssignedSet(s.chunks), |s.chunks|);
  }

  // While chunks remain, the module asks for one from a Provider with memory to spare.
  lemma AsksWhileShort(s: State, draws: seq<nat>) returns (p: nat, chunk: nat)
    requires Reserving(s) && s.usableCount < |s.chunks|
    ensures p < |s.providers| && Available(s, p) > 0 && chunk < |s.chunks| && s.chunks[chunk].phase.Unmapped?
    ensures LiveSlot(s, s.providers[p].handle)
    ensures NextMapping(s, draws) == CreateClaim(s, s.providers[p].handle, chunk)
    ensures NextMapping(s, draws).1 ==
      RequestMapping(s.providers[p].handle, CommittedPool, chunk, NewClaim(s, s.providers[p].handle, chunk))
  {
    hide Inv, CreateClaim, Available, SomePending, Wanted, Choose, Eligible, Live, NewClaim;
    var n := |s.providers|;
    UsableIsAssigned(s);
    AggregateEligible(s, n);
    SomeWanted(s);
    SampleSizePositive(s);
    PlacementChooses(s, draws);
    p, chunk := Choose(s, Eligible(s, n), draws), FirstWanted(s, 0).value;
    RoomForOne(s, p);
    RosterLive(s, p);
    WantedIsUnmapped(s, chunk);
    CreateClaimAsks(s, s.providers[p].handle, chunk);
    NextMappingTries(s, draws);
  }

  lemma RosterLive(s: State, p: nat)
    requires Inv(s) && p < |s.providers| && !s.providers[p].failed
    ensures Live(s, s.providers[p].handle) && LiveSlot(s, s.providers[p].handle)
  {
    LiveIffSlot(s, s.providers[p].handle);
  }

  lemma NextMappingTries(s: State, draws: seq<nat>)
    requires s.sampleSize > 0 && !s.quiescing && s.mappingClaims == 0 && !SomePending(s)
    requires s.usableCount < |s.chunks| && s.assignedCount + Aggregate(s, |s.providers|) >= |s.chunks|
    requires FirstWanted(s, 0).Some? && Eligible(s, |s.providers|) != []
    ensures NextMapping(s, draws) ==
      CreateClaim(s, s.providers[Choose(s, Eligible(s, |s.providers|), draws)].handle, FirstWanted(s, 0).value)
  {
    hide CreateClaim, SomePending, Choose, Eligible, Aggregate, FirstWanted;
  }

  lemma WantedIsUnmapped(s: State, chunk: nat)
    requires chunk < |s.chunks| && Wanted(s, s.chunks[chunk])
    ensures s.chunks[chunk].phase.Unmapped?
  {}

  lemma CreateClaimAsks(s: State, h: Handle, chunk: nat)
    requires chunk < |s.chunks| && s.chunks[chunk].phase.Unmapped? && Live(s, h) && s.mappingClaims == 0
    requires s.lastMappingClaim < ID_MAX && s.lastTransition < ID_MAX
    ensures CreateClaim(s, h, chunk).1 == RequestMapping(h, PoolFor(s.mode), chunk, NewClaim(s, h, chunk))
  {
    hide Live, NewClaim;
  }

  lemma SomeWanted(s: State)
    requires Inv(s) && s.mode.RemoteOnly? && s.usableCount < |s.chunks| && s.mappingClaims == 0
    ensures FirstWanted(s, 0).Some?
  {
    hide Digest;
    if FirstWanted(s, 0).None? {
      forall i | 0 <= i < |s.chunks| ensures s.chunks[i].phase.Mapped? {
        assert !Wanted(s, s.chunks[i]);
        PhaseSets(s.chunks, i);
        assert MappingSet(s.chunks) == {};
      }
      assert MappedSet(s.chunks) == Range(0, |s.chunks|);
      RangeSize(|s.chunks|);
    }
  }

  // A usable grant that backs no other chunk is always accepted for the open claim.
  lemma CommitAccepted(s: State, i: nat, g: Grant)
    requires Inv(s) && ClaimWellFormed(s.activeClaim) && !s.quiescing && s.lastGeneration < ID_MAX
    requires i < |s.chunks| && s.chunks[i].phase.Mapping? && g.chunk == i && GrantUsable(s, g)
    requires forall j :: 0 <= j < |s.chunks| && IsAssigned(s.chunks[j]) && s.chunks[j].provider == s.chunks[i].provider ==>
      s.chunks[j].providerChunk != g.providerChunk
    ensures FinishMapping(s, s.activeClaim, Commit, s.chunks[i].provider, [g]).1.Committed?
  {
    hide Digest, AssignedSet, MappedSet, DebitsOk, BatchesOk, GrantsUnique, ValidityOk, ModeOk, LeaseSum, EvictionHeads,
      ApplyGrants, Live;
    var o := OpenClaim(s);
    assert i == o by { PhaseSets(s.chunks, i); }
    assert ChunkOk(s, i);
    LiveIffSlot(s, s.chunks[i].provider);
    assert [g][0].chunk == i;
    assert GrantedChunks([g]) == {i};
    CountsBounded(s);
  }

  lemma CountsBounded(s: State)
    requires Inv(s)
    ensures s.assignedCount <= |s.chunks| && s.usableCount <= |s.chunks|
  {
    BoundedSize(AssignedSet(s.chunks), |s.chunks|);
    BoundedSize(MappedSet(s.chunks), |s.chunks|);
  }

  // One round maps one more chunk and keeps the reservation covered.
  lemma RoundMapsOne(s: State, turn: Turn)
    requires Reserving(s) && s.usableCount < |s.chunks| && GoodTurn(s, turn)
    ensures var t := Round(s, turn);
      Reserving(t) && t.usableCount == s.usableCount + 1 && |t.chunks| == |s.chunks|
  {
    var p, chunk := AsksWhileShort(s, turn.draws);
    RoundFrom(s, turn, p, chunk);
  }

  lemma RoundFrom(s: State, turn: Turn, p: nat, chunk: nat)
    requires Reserving(s) && s.usableCount < |s.chunks| && p < |s.providers| && Available(s, p) > 0
    requires chunk < |s.chunks| && s.chunks[chunk].phase.Unmapped? && LiveSlot(s, s.providers[p].handle)
    requires NextMapping(s, turn.draws) == CreateClaim(s, s.providers[p].handle, chunk)
    requires NextMapping(s, turn.draws).1 ==
      RequestMapping(s.providers[p].handle, CommittedPool, chunk, NewClaim(s, s.providers[p].handle, chunk))
    requires Grantable(s, turn, s.providers[p].handle)
    ensures var t := Round(s, turn);
      Reserving(t) && t.usableCount == s.usableCount + 1 && |t.chunks| == |s.chunks|
  {
    hide NextMapping, FinishMapping, Digest, ChunksOk, ClaimsOk, CountersOk, BatchesOk, GrantsUnique, ValidityOk, ModeOk,
      DebitsOk, Available, MappingSet, Live;
    var h := s.providers[p].handle;
    var t := NextMapping(s, turn.draws).0;
    NextMappingKeeps(s, turn.draws);
    var g := GrantOf(turn, chunk);
    CommitAccepted(t, chunk, g);
    CommitShape(t, t.activeClaim, h, [g]);
    var u := Round(s, turn);
    assert u == FinishMapping(t, t.activeClaim, Commit, h, [g]).0;
    forall i | 0 <= i < |s.providers|
      ensures if i == p then Available(u, i) + 1 >= Available(s, i) else Available(u, i) == Available(s, i)
    {
      AvailableAfter(s, u, p, chunk, i);
    }
    AggregateDrops(s, u, p, |s.providers|);
  }

  // Every round asks and commits, and the reservation is complete after exactly as many rounds as chunks were missing.
  lemma {:induction false} ReservationCompletes(s: State, turns: seq<Turn>, draws: seq<nat>)
    requires Reserving(s) && s.usableCount + |turns| <= |s.chunks| && GoodTurns(s, turns)
    ensures var t := Reserve(s, turns);
      && |t.chunks| == |s.chunks| && t.usableCount == s.usableCount + |turns|
      && if t.usableCount == |t.chunks| then NextMapping(t, draws) == (t, MappingComplete)
         else NextMapping(t, draws).1.RequestMapping?
    decreases |turns|
  {
    hide NextMapping, Round, Inv, Aggregate, GoodTurn, SomePending;
    if turns == [] {
      if s.usableCount == |s.chunks| { NextMappingComplete(s, draws); } else { var p, chunk := AsksWhileShort(s, draws); }
    } else {
      RoundMapsOne(s, turns[0]);
      ReservationCompletes(Round(s, turns[0]), turns[1..], draws);
    }
  }

  lemma NextMappingComplete(s: State, draws: seq<nat>)
    requires Reserving(s) && s.usableCount == |s.chunks|
    ensures NextMapping(s, draws) == (s, MappingComplete)
  {
    hide SomePending, Eligible, Aggregate, FirstWanted;
  }

  // A Remote-Only module that asks for its first chunk has been promised memory for all of them.
  lemma AdmissionReserves(s: State, draws: seq<nat>)
    requires Inv(s) && s.mode.RemoteOnly? && s.assignedCount == 0 && NextMapping(s, draws).1.RequestMapping?
    requires s.lastMappingClaim + |s.chunks| <= ID_MAX && s.lastTransition + |s.chunks| <= ID_MAX
    requires s.lastGeneration + |s.chunks| <= ID_MAX
    ensures Reserving(s)
  {
    hide ChunksOk, ClaimsOk, BatchesOk, GrantsUnique, ValidityOk, DebitsOk, CreateClaim, Available, SomePending, Choose;
  }
}
