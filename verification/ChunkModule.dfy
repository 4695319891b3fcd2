/**
 The Remote Chunk module as the block device runs it: one object whose chunk
 table, roster, placement scratch space, validity words and counters are updated
 in place. Each entry is proved against its function in ChunkState.
 */
module ChunkModule {
  import opened Options
  import opened SectorBitmap
  import opened ChunkState
  import opened ChunkInvariant

  // ---------------------------------------------------- one more table entry

  lemma OwnedNext(cs: seq<Chunk>, n: nat, h: Handle)
    requires n < |cs|
    ensures OwnedBy(cs[..n + 1], h) == OwnedBy(cs[..n], h) + (if Owns(h, cs[n]) then {n} else {})
    ensures n !in OwnedBy(cs[..n], h)
  {}

  lemma AssignedByNext(cs: seq<Chunk>, n: nat, h: Handle)
    requires n < |cs|
    ensures AssignedBy(cs[..n + 1], h) == AssignedBy(cs[..n], h) + (if IsAssigned(cs[n]) && cs[n].provider == h then {n} else {})
    ensures n !in AssignedBy(cs[..n], h)
  {
    hide IsAssigned;
  }

  lemma AssignedNext(cs: seq<Chunk>, n: nat, h: Handle)
    requires n < |cs|
    ensures AssignedTo(cs[..n + 1], h) == AssignedTo(cs[..n], h) + (if IsAssigned(cs[n]) && cs[n].provider == h then 1 else 0)
  {
    hide IsAssigned, AssignedBy;
    AssignedByNext(cs, n, h);
  }

  lemma DebitsNext(cs: seq<Chunk>, n: nat, h: Handle)
    requires n < |cs|
    ensures Debits(cs[..n + 1], h) == Debits(cs[..n], h) + (if Owns(h, cs[n]) then 1 else 0)
    ensures AssignedTo(cs[..n + 1], h) == AssignedTo(cs[..n], h) + (if IsAssigned(cs[n]) && cs[n].provider == h then 1 else 0)
  {
    hide OwnedBy;
    OwnedNext(cs, n, h);
    AssignedNext(cs, n, h);
  }

  lemma WholePrefix<T>(xs: seq<T>)
    ensures xs[..|xs|] == xs
  {}

  lemma WeightNext(s: State, candidates: seq<int>, k: nat)
    requires Indices(s, candidates) && k < |candidates|
    ensures TotalWeight(s, candidates[..k + 1]) == TotalWeight(s, candidates[..k]) + s.providers[candidates[k]].weight
  {
    assert candidates[..k + 1][..k] == candidates[..k];
  }

  lemma SampleStep(s: State, cs: seq<int>, size: nat, draws: seq<nat>, round: nat)
    requires Indices(s, cs) && 0 < size <= |cs|
    ensures var k := Locate(s, cs, Draw(draws, round, TotalWeight(s, cs)), 0);
      && k < |cs| && Indices(s, SwapOut(cs, k))
      && Sample(s, cs, size, draws, round) == [cs[k]] + Sample(s, SwapOut(cs, k), size - 1, draws, round + 1)
  {
    hide Locate, TotalWeight;
  }

  lemma Regroup(done: seq<int>, more: seq<int>, rest: seq<int>)
    requires |more| == |done| + 1 && done == more[..|done|]
    ensures more + rest == done + ([more[|done|]] + rest)
  {}

  lemma NoSample(s: State, cs: seq<int>, draws: seq<nat>, round: nat)
    requires Indices(s, cs)
    ensures Sample(s, cs, 0, draws, round) == []
  {}

  lemma OpenedClaim(s: State, h: Handle, chunk: nat)
    requires chunk < |s.chunks|
    ensures ClaimOpened(s, h, chunk).activeClaim == NewClaim(s, h, chunk)
  {}

  // ------------------------------------------------------- mapping and eviction batches

  predicate InBatch(c: Chunk, evicting: bool, id: nat) {
    if evicting then c.evictionClaim == id else c.mappingClaim == id
  }

  function Batch(cs: seq<Chunk>, evicting: bool, id: nat): set<int> {
    if evicting then EvictedBy(cs, id) else ClaimedBy(cs, id)
  }

  predicate Matches(c: Chunk, evicting: bool, transition: nat, h: Handle) {
    (if evicting then c.phase.Evicting? else c.phase.Mapping?) && c.transition == transition && c.provider == h
  }

  ghost predicate BatchUniform(cs: seq<Chunk>, evicting: bool, id: nat, transition: nat, h: Handle) {
    forall i :: 0 <= i < |cs| && InBatch(cs[i], evicting, id) ==> Matches(cs[i], evicting, transition, h)
  }

  lemma NoBatch(cs: seq<Chunk>, evicting: bool, id: nat)
    ensures Batch(cs[..0], evicting, id) == {}
  {}

  lemma BatchNext(cs: seq<Chunk>, n: nat, evicting: bool, id: nat)
    requires n < |cs|
    ensures Batch(cs[..n + 1], evicting, id) == Batch(cs[..n], evicting, id) + (if InBatch(cs[n], evicting, id) then {n} else {})
    ensures n !in Batch(cs[..n], evicting, id)
  {}

  // The conditional set stays out of the loop that counts.
  lemma BatchCount(cs: seq<Chunk>, n: nat, evicting: bool, id: nat)
    requires n < |cs|
    ensures |Batch(cs[..n + 1], evicting, id)| == |Batch(cs[..n], evicting, id)| + (if InBatch(cs[n], evicting, id) then 1 else 0)
  {
    hide Batch, InBatch;
    BatchNext(cs, n, evicting, id);
  }

  lemma SelectedBatch(flags: seq<bool>, cs: seq<Chunk>, evicting: bool, id: nat)
    requires |flags| == |cs| && forall j :: 0 <= j < |cs| ==> flags[j] == InBatch(cs[j], evicting, id)
    ensures flags == Selection(|cs|, Batch(cs, evicting, id))
  {
    hide Batch, InBatch;
    BatchMembers(cs, evicting, id);
  }

  lemma BatchMembers(cs: seq<Chunk>, evicting: bool, id: nat)
    ensures forall i :: i in Batch(cs, evicting, id) <==> 0 <= i < |cs| && InBatch(cs[i], evicting, id)
  {}

  lemma UsableMeans(s: State, g: Grant)
    ensures GrantUsable(s, g) <==>
      g.chunk < |s.chunks| && g.address != 0 && g.key != 0 && g.address <= ID_MAX - (SECTORS_PER_CHUNK * SECTOR_BYTES - 1)
  {}

  lemma ShapedInRange(s: State, c: MappingClaim, grants: seq<Grant>)
    requires GrantsShaped(s, c, grants)
    ensures forall k :: 0 <= k < |grants| ==> grants[k].chunk < |s.chunks|
  {
    hide Digest;
  }

  lemma EarlyFinish(s: State, c: MappingClaim, action: FinishAction, h: Handle, grants: seq<Grant>)
    ensures
      if !HandleWellFormed(h) || !ClaimWellFormed(c) || c.count > |s.chunks| || (action.Abort? && grants != []) then
        FinishMapping(s, c, action, h, grants) == (s, Invalid)
      else c.epoch != s.epoch || !Live(s, c.provider) ==> FinishMapping(s, c, action, h, grants) == (s, Stale)
  {
    hide Live, ApplyGrants, ClaimIsActive, GrantMatches, GrantAvailable, GrantsShaped, Unclaim;
  }

  // What the result of a finish call says about the state it leaves.
  lemma FinishedMeans(s: State, c: MappingClaim, action: FinishAction, h: Handle, grants: seq<Grant>)
    ensures var (t, r) := FinishMapping(s, c, action, h, grants);
      if r.Aborted? then
        && s.mappingClaims > 0
        && t == EndClaim(s.(chunks := Unclaim(s.chunks, c.id), mappingClaims := s.mappingClaims - 1), c, AbortTerminal)
      else if r.Committed? then
        && s.mappingClaims > 0 && (forall k :: 0 <= k < |grants| ==> grants[k].chunk < |s.chunks|)
        && t == EndClaim(ApplyGrants(s, grants).(
                  assignedCount := s.assignedCount + c.debit, usableCount := s.usableCount + c.debit,
                  mappingClaims := s.mappingClaims - 1), c, CommitTerminal)
      else t == s
  {
    hide Live, ApplyGrants, ClaimIsActive, GrantMatches, GrantAvailable, Unclaim, Digest, EndClaim;
  }

  lemma SelectNext(s: State, h: Handle, ids: seq<nat>, n: nat)
    requires n < |ids| && SelectBatch(s, h, ids, n).1.Ok?
    ensures var found := FindChunk(s, h, ids[n], 0);
      var chosen := SelectBatch(s, h, ids, n).0;
      SelectBatch(s, h, ids, n + 1) ==
        if found.None? then (chosen, ENoEnt)
        else if found.value in chosen then (chosen, EInval) else (chosen + {found.value}, Ok)
  {
    hide FindChunk;
  }

  // The first unusable entry decides the status of the batch.
  lemma {:induction false} SelectStops(s: State, h: Handle, ids: seq<nat>, n: nat)
    requires n <= |ids| && !SelectBatch(s, h, ids, n).1.Ok?
    ensures SelectBatch(s, h, ids, |ids|).1 == SelectBatch(s, h, ids, n).1
    decreases |ids| - n
  {
    hide FindChunk;
    if n < |ids| { SelectStops(s, h, ids, n + 1); }
  }

  // What an eviction leaves behind once it has begun.
  function EvictionOpened(s: State, count: nat, chosen: set<int>): State
    requires count <= s.usableCount
  {
    s.(chunks := Close(s.chunks, chosen, s.lastEvictionClaim + 1, s.lastTransition + 1),
       lastEvictionClaim := s.lastEvictionClaim + 1, lastTransition := s.lastTransition + 1, endedClaim := NO_CLAIM, endedAction := NoTerminal,
       usableCount := s.usableCount - count, evictionClaims := s.evictionClaims + 1)
  }

  lemma BegunMeans(s: State, h: Handle, ids: seq<nat>, prior: EvictionClaim)
    ensures var (t, status, claim) := BeginEviction(s, h, ids, prior);
      var chosen := SelectBatch(s, h, ids, |ids|).0;
      var id, transition := s.lastEvictionClaim + 1, s.lastTransition + 1;
      if !status.Ok? then t == s && claim == prior
      else
        && |ids| <= s.usableCount && t == EvictionOpened(s, |ids|, chosen)
        && claim == EvictionClaim(true, s.epoch, h, id, transition, Digest(Selection(|s.chunks|, chosen)), |ids|)
  {
    hide Live, CheckEviction, SelectBatch, Close, Selection, Digest;
  }

  lemma EvictionTagged(s: State, c: EvictionClaim)
    requires CheckEviction(s, c).Ok?
    ensures c.id != 0
  {
    hide Live, EvictedBy, Digest;
  }

  // ------------------------------------------------------------------- resets

  // One chunk loses its mapping and takes the next generation.
  function ResetOne(s: State, i: nat, cool: bool): State
    requires i < |s.chunks|
  {
    s.(chunks := s.chunks[i := ResetChunk(s.chunks[i], s.lastGeneration + 1, cool)],
       lastGeneration := s.lastGeneration + 1, valid := s.valid - ChunkSectors(i))
  }

  function Below(members: set<int>, n: int): set<int> { set i | i in members && i < n }

  lemma ResetNone(s: State, members: set<int>, cool: bool)
    requires forall i :: i in members ==> 0 <= i
    ensures ResetMembers(s, Below(members, 0), cool) == s
  {
    assert Below(members, 0) == {};
    assert ResetChunks(s.chunks, {}, s.lastGeneration, cool) == s.chunks;
    assert Invalidate(s.valid, {}) == s.valid;
  }

  lemma ResetAll(s: State, members: set<int>, cool: bool)
    requires forall i :: i in members ==> i < |s.chunks|
    ensures ResetMembers(s, Below(members, |s.chunks|), cool) == ResetMembers(s, members, cool)
  {
    assert Below(members, |s.chunks|) == members;
  }

  lemma RankBelow(members: set<int>, n: nat, i: int)
    requires i < n
    ensures Rank(Below(members, n), i) == Rank(members, i)
  {
    var xs := set j | j in Below(members, n) && j <= i;
    var ys := set j | j in members && j <= i;
    assert xs == ys;
  }

  lemma RankLast(members: set<int>, n: nat)
    requires n in members
    ensures Rank(members, n) == |Below(members, n)| + 1 == |Below(members, n + 1)|
  {
    var xs := set j | j in members && j <= n;
    assert xs == Below(members, n) + {n};
    assert Below(members, n + 1) == Below(members, n) + {n};
  }

  // The loop that resets in index order numbers each member by its rank.
  lemma ResetNext(s: State, members: set<int>, n: nat, cool: bool)
    requires n < |s.chunks|
    ensures var t := ResetMembers(s, Below(members, n), cool);
      && |t.chunks| == |s.chunks| && t.chunks[n] == s.chunks[n]
      && ResetMembers(s, Below(members, n + 1), cool) == if n in members then ResetOne(t, n, cool) else t
  {
    var t := ResetMembers(s, Below(members, n), cool);
    var u := ResetMembers(s, Below(members, n + 1), cool);
    if n in members {
      var v := ResetOne(t, n, cool);
      ResetNextChunks(s, members, n, cool);
      ResetNextValid(s, members, n);
      RankLast(members, n);
    } else {
      assert Below(members, n + 1) == Below(members, n);
    }
  }

  lemma ResetNextChunks(s: State, members: set<int>, n: nat, cool: bool)
    requires n < |s.chunks| && n in members
    ensures var cs := ResetChunks(s.chunks, Below(members, n), s.lastGeneration, cool);
      ResetChunks(s.chunks, Below(members, n + 1), s.lastGeneration, cool) ==
        cs[n := ResetChunk(cs[n], s.lastGeneration + |Below(members, n)| + 1, cool)]
  {
    hide Rank;
    var cs := ResetChunks(s.chunks, Below(members, n), s.lastGeneration, cool);
    var ds := ResetChunks(s.chunks, Below(members, n + 1), s.lastGeneration, cool);
    RankLast(members, n);
    forall i | 0 <= i < |s.chunks|
      ensures ds[i] == cs[n := ResetChunk(cs[n], s.lastGeneration + |Below(members, n)| + 1, cool)][i]
    {
      if i < n { RankBelow(members, n, i); }
      if i <= n { RankBelow(members, n + 1, i); }
    }
  }

  lemma ResetNextValid(s: State, members: set<int>, n: nat)
    requires n in members
    ensures Invalidate(s.valid, Below(members, n + 1)) == Invalidate(s.valid, Below(members, n)) - ChunkSectors(n)
  {
    forall x ensures x in ChunkSectors(n) <==> ChunkOf(x) == n {}
  }

  lemma EvictedIndex(cs: seq<Chunk>, id: nat)
    ensures forall i :: i in EvictedBy(cs, id) <==> 0 <= i < |cs| && cs[i].evictionClaim == id
  {}

  lemma OwnedIndex(cs: seq<Chunk>, h: Handle)
    ensures forall i :: i in OwnedBy(cs, h) <==> 0 <= i < |cs| && !cs[i].phase.Unmapped? && cs[i].provider == h
  {}

  // ------------------------------------------------------------------- losses

  datatype Losses = Losses(facts: FailureFacts, mappings: nat, evictions: nat)
  const NO_LOSSES := Losses(NO_FACTS, 0, 0)

  ghost function LossesOver(cs: seq<Chunk>, h: Handle): Losses {
    var owned := OwnedBy(cs, h);
    Losses(FailureFacts(|owned|, |owned * AssignedSet(cs)|, |owned * MappedSet(cs)|, |owned * MappingSet(cs)|,
                        |owned * EvictingSet(cs)|, LeaseSumOf(cs, h)),
           |owned * MappingHeads(cs)|, |owned * EvictionHeads(cs)|)
  }

  lemma NoLosses(cs: seq<Chunk>, h: Handle)
    ensures LossesOver(cs[..0], h) == NO_LOSSES
  {
    assert OwnedBy(cs[..0], h) == {};
  }

  // Whether the next chunk joins each of the sets that are counted.
  lemma PhaseNext(cs: seq<Chunk>, n: nat)
    requires n < |cs|
    ensures AssignedSet(cs[..n + 1]) == AssignedSet(cs[..n]) + (if IsAssigned(cs[n]) then {n} else {})
    ensures MappedSet(cs[..n + 1]) == MappedSet(cs[..n]) + (if cs[n].phase.Mapped? then {n} else {})
    ensures MappingSet(cs[..n + 1]) == MappingSet(cs[..n]) + (if cs[n].phase.Mapping? then {n} else {})
    ensures EvictingSet(cs[..n + 1]) == EvictingSet(cs[..n]) + (if cs[n].phase.Evicting? then {n} else {})
    ensures n !in AssignedSet(cs[..n]) && n !in MappedSet(cs[..n])
    ensures n !in MappingSet(cs[..n]) && n !in EvictingSet(cs[..n])
  {}

  lemma HeadNext(cs: seq<Chunk>, n: nat)
    requires n < |cs|
    ensures MappingHeads(cs[..n + 1]) ==
      MappingHeads(cs[..n]) + (if cs[n].phase.Mapping? && HeadsMapping(cs, n) then {n} else {})
    ensures n !in MappingHeads(cs[..n])
  {
    var xs, ys := cs[..n], cs[..n + 1];
    assert forall i :: 0 <= i < n ==> HeadsMapping(ys, i) == HeadsMapping(xs, i);
    assert HeadsMapping(ys, n) == HeadsMapping(cs, n);
  }

  lemma EvictionHeadNext(cs: seq<Chunk>, n: nat)
    requires n < |cs|
    ensures EvictionHeads(cs[..n + 1]) ==
      EvictionHeads(cs[..n]) + (if cs[n].phase.Evicting? && HeadsEviction(cs, n) then {n} else {})
    ensures n !in EvictionHeads(cs[..n])
  {
    var xs, ys := cs[..n], cs[..n + 1];
    assert forall i :: 0 <= i < n ==> HeadsEviction(ys, i) == HeadsEviction(xs, i);
    assert HeadsEviction(ys, n) == HeadsEviction(cs, n);
  }

  lemma CutGrows(o: set<int>, o': set<int>, a: set<int>, a': set<int>, n: int, owns: bool, joins: bool)
    requires n !in o && n !in a && o' == o + (if owns then {n} else {}) && a' == a + (if joins then {n} else {})
    ensures |o' * a'| == |o * a| + (if owns && joins then 1 else 0)
  {
    if owns && joins {
      assert o' * a' == o * a + {n};
    } else {
      assert o' * a' == o * a;
    }
  }

  lemma LeaseSumNext(cs: seq<Chunk>, n: nat, h: Handle)
    requires n < |cs|
    ensures LeaseSumOf(cs[..n + 1], h) == LeaseSumOf(cs[..n], h) + (if Owns(h, cs[n]) then cs[n].leases else 0)
    ensures LeaseSum(cs[..n + 1]) == LeaseSum(cs[..n]) + cs[n].leases
  {
    assert cs[..n + 1][..n] == cs[..n];
  }

  lemma OwnedLosses(cs: seq<Chunk>, n: nat, h: Handle)
    requires n < |cs|
    ensures var xs, ys, owns := cs[..n], cs[..n + 1], Owns(h, cs[n]);
      && |OwnedBy(ys, h)| == |OwnedBy(xs, h)| + (if owns then 1 else 0)
      && |OwnedBy(ys, h) * AssignedSet(ys)| == |OwnedBy(xs, h) * AssignedSet(xs)| + (if owns && IsAssigned(cs[n]) then 1 else 0)
      && |OwnedBy(ys, h) * MappedSet(ys)| == |OwnedBy(xs, h) * MappedSet(xs)| + (if owns && cs[n].phase.Mapped? then 1 else 0)
  {
    hide OwnedBy, AssignedSet, MappedSet, MappingSet, EvictingSet;
    var xs, ys := cs[..n], cs[..n + 1];
    OwnedNext(cs, n, h);
    PhaseNext(cs, n);
    CutGrows(OwnedBy(xs, h), OwnedBy(ys, h), AssignedSet(xs), AssignedSet(ys), n, Owns(h, cs[n]), IsAssigned(cs[n]));
    CutGrows(OwnedBy(xs, h), OwnedBy(ys, h), MappedSet(xs), MappedSet(ys), n, Owns(h, cs[n]), cs[n].phase.Mapped?);
  }

  lemma MappingLosses(cs: seq<Chunk>, n: nat, h: Handle)
    requires n < |cs|
    ensures var xs, ys, mine := cs[..n], cs[..n + 1], Owns(h, cs[n]) && cs[n].phase.Mapping?;
      && |OwnedBy(ys, h) * MappingSet(ys)| == |OwnedBy(xs, h) * MappingSet(xs)| + (if mine then 1 else 0)
      && |OwnedBy(ys, h) * MappingHeads(ys)| ==
           |OwnedBy(xs, h) * MappingHeads(xs)| + (if mine && HeadsMapping(cs, n) then 1 else 0)
  {
    hide OwnedBy, AssignedSet, MappedSet, MappingSet, EvictingSet, MappingHeads, HeadsMapping;
    var xs, ys := cs[..n], cs[..n + 1];
    OwnedNext(cs, n, h);
    PhaseNext(cs, n);
    HeadNext(cs, n);
    CutGrows(OwnedBy(xs, h), OwnedBy(ys, h), MappingSet(xs), MappingSet(ys), n, Owns(h, cs[n]), cs[n].phase.Mapping?);
    CutGrows(OwnedBy(xs, h), OwnedBy(ys, h), MappingHeads(xs), MappingHeads(ys), n, Owns(h, cs[n]),
             cs[n].phase.Mapping? && HeadsMapping(cs, n));
  }

  lemma EvictingLosses(cs: seq<Chunk>, n: nat, h: Handle)
    requires n < |cs|
    ensures var xs, ys, mine := cs[..n], cs[..n + 1], Owns(h, cs[n]) && cs[n].phase.Evicting?;
      && |OwnedBy(ys, h) * EvictingSet(ys)| == |OwnedBy(xs, h) * EvictingSet(xs)| + (if mine then 1 else 0)
      && |OwnedBy(ys, h) * EvictionHeads(ys)| ==
           |OwnedBy(xs, h) * EvictionHeads(xs)| + (if mine && HeadsEviction(cs, n) then 1 else 0)
  {
    hide OwnedBy, AssignedSet, MappedSet, MappingSet, EvictingSet, EvictionHeads, HeadsEviction;
    var xs, ys := cs[..n], cs[..n + 1];
    OwnedNext(cs, n, h);
    PhaseNext(cs, n);
    EvictionHeadNext(cs, n);
    CutGrows(OwnedBy(xs, h), OwnedBy(ys, h), EvictingSet(xs), EvictingSet(ys), n, Owns(h, cs[n]), cs[n].phase.Evicting?);
    CutGrows(OwnedBy(xs, h), OwnedBy(ys, h), EvictionHeads(xs), EvictionHeads(ys), n, Owns(h, cs[n]),
             cs[n].phase.Evicting? && HeadsEviction(cs, n));
  }

  lemma LossesNext(cs: seq<Chunk>, n: nat, h: Handle)
    requires n < |cs|
    ensures var l, l', c := LossesOver(cs[..n], h), LossesOver(cs[..n + 1], h), cs[n];
      if !Owns(h, c) then l' == l
      else l' == Losses(
             FailureFacts(l.facts.affected + 1, l.facts.assignedCount + (if IsAssigned(c) then 1 else 0),
                          l.facts.usableCount + (if c.phase.Mapped? then 1 else 0),
                          l.facts.mapping + (if c.phase.Mapping? then 1 else 0),
                          l.facts.evicting + (if c.phase.Evicting? then 1 else 0), l.facts.leases + c.leases),
             l.mappings + (if c.phase.Mapping? && HeadsMapping(cs, n) then 1 else 0),
             l.evictions + (if c.phase.Evicting? && HeadsEviction(cs, n) then 1 else 0))
  {
    hide OwnedBy, AssignedSet, MappedSet, MappingSet, EvictingSet, MappingHeads, EvictionHeads, LeaseSumOf, HeadsMapping,
      HeadsEviction;
    OwnedLosses(cs, n, h);
    MappingLosses(cs, n, h);
    EvictingLosses(cs, n, h);
    LeaseSumNext(cs, n, h);
  }

  function Subtracted(s: State, l: Losses): State
    requires l.facts.assignedCount <= s.assignedCount && l.facts.usableCount <= s.usableCount
    requires l.mappings <= s.mappingClaims && l.evictions <= s.evictionClaims
  {
    s.(assignedCount := s.assignedCount - l.facts.assignedCount, usableCount := s.usableCount - l.facts.usableCount,
       mappingClaims := s.mappingClaims - l.mappings, evictionClaims := s.evictionClaims - l.evictions)
  }

  // What a Provider's failure leaves behind.
  ghost function Lost(s: State, p: nat, h: Handle, l: Losses): State
    requires l.facts.assignedCount <= s.assignedCount && l.facts.usableCount <= s.usableCount
    requires l.mappings <= s.mappingClaims && l.evictions <= s.evictionClaims && p < |s.providers|
  {
    var t := if l.mappings != 0 then EndClaim(s, s.activeClaim, FailureTerminal) else s;
    var p' := s.providers[p].(failed := true, eligible := false, exclusion := Unhealthy, facts := l.facts);
    Subtracted(ResetMembers(t, OwnedBy(s.chunks, h), false), l).(
      lastTransition := s.lastTransition + 1, providers := s.providers[p := p'])
  }

  lemma ResetKeepsRest(s: State, members: set<int>)
    ensures ResetMembers(s.(lastTransition := s.lastTransition + 1), members, false)
         == ResetMembers(s, members, false).(lastTransition := s.lastTransition + 1)
  {
    hide Invalidate, ResetChunks;
  }

  lemma FailureMeans(s: State, h: Handle)
    ensures var found := RosterIndex(s, h);
      var l := LossesOver(s.chunks, h);
      FailProvider(s, h) ==
        if !HandleWellFormed(h) then (s, FailureInvalid, NO_FACTS)
        else if found.None? then (s, FailureStaleEpoch, NO_FACTS)
        else if s.providers[found.value].failed then (s, FailureDuplicate, s.providers[found.value].facts)
        else if s.lastGeneration + l.facts.affected > ID_MAX || s.assignedCount < l.facts.assignedCount
             || s.usableCount < l.facts.usableCount || s.mappingClaims < l.mappings || s.evictionClaims < l.evictions
             || s.lastTransition >= ID_MAX
             || (l.mappings != 0 && (!ClaimWellFormed(s.activeClaim) || s.activeClaim.provider != h)) then
          (s, FailureExhausted, NO_FACTS)
        else (Lost(s, found.value, h, l), FailureApplied, l.facts)
  {
    hide OwnedBy, AssignedSet, MappedSet, MappingSet, EvictingSet, MappingHeads, EvictionHeads, LeaseSumOf, RosterIndex,
      ResetChunks, Invalidate;
  }

  // -------------------------------------------------------------------- leases

  ghost function LeaseGranted(s: State, i: nat, r: Request): State
    requires i < |s.chunks|
  {
    s.(chunks := s.chunks[i := s.chunks[i].(leases := s.chunks[i].leases + 1)], leases := s.leases + 1,
       lastLease := s.lastLease + 1,
       valid := if r.direction.Write? then s.valid - Range(r.sector, r.bytes / SECTOR_BYTES) else s.valid)
  }

  // An unresolved lease of the chunk's current generation was granted on a chunk that is still placed.
  ghost predicate Genuine(s: State, home: nat, l: Lease) {
    CheckLease(s, home, l).Ok? && s.chunks[l.chunk].generation == l.generation && !l.resolved ==>
      IsAssigned(s.chunks[l.chunk])
  }

  lemma AcquiredMeans(s: State, home: nat, storage: Lease, r: Request)
    ensures var (t, lease, status, transport) := AcquireLease(s, home, storage, r);
      var i := (r.sector / SECTORS_PER_CHUNK) % U32_SIZE;
      if !status.Ok? then t == s && lease == storage && transport == NoTransport
      else
        && RangeAdmitted(s, r) && i < |s.chunks| && t == LeaseGranted(s, i, r)
        && lease == Lease(home, s.epoch, s.lastLease + 1, s.chunks[i].generation, r.sector, r.bytes / SECTOR_BYTES, i,
                          r.direction, false, false)
        && transport == Transport(s.chunks[i].provider,
                                  s.chunks[i].address + r.sector % SECTORS_PER_CHUNK * SECTOR_BYTES,
                                  s.chunks[i].key, s.chunks[i].providerChunk, i)
  {
    hide Range;
  }

  lemma AdmittedInWords(s: State, r: Request, words: nat)
    requires RangeAdmitted(s, r) && WORD_BITS * words == |s.chunks| * SECTORS_PER_CHUNK
    ensures var count := r.bytes / SECTOR_BYTES; count > 0 && r.sector + count <= WORD_BITS * words
    ensures (r.sector / SECTORS_PER_CHUNK) % U32_SIZE < |s.chunks|
  {
    var count := r.bytes / SECTOR_BYTES;
    var last := r.sector + count - 1;
    assert last / SECTORS_PER_CHUNK + 1 <= |s.chunks|;
    assert (last / SECTORS_PER_CHUNK + 1) * SECTORS_PER_CHUNK <= |s.chunks| * SECTORS_PER_CHUNK;
  }

  lemma LeaseInWords(s: State, home: nat, l: Lease, words: nat)
    requires CheckLease(s, home, l).Ok? && WORD_BITS * words == |s.chunks| * SECTORS_PER_CHUNK
    ensures l.count > 0 && l.sector + l.count <= WORD_BITS * words
  {
    assert (l.chunk + 1) * SECTORS_PER_CHUNK <= |s.chunks| * SECTORS_PER_CHUNK;
  }

  lemma EmptyWords(words: seq<Word>)
    requires forall w :: 0 <= w < |words| ==> words[w] == WordOf(0)
    ensures Members(words) == {}
  {
    forall x | 0 <= x < WORD_BITS * |words| ensures !Has(words, x) { ZeroBit(x % WORD_BITS); }
  }

  lemma QuiesceKeeps(s: State)
    requires Inv(s)
    ensures Inv(Quiesce(s)) && Inv(Destroy(s).0)
  {
    QuietKeeps(s, Quiesce(s));
    QuietKeeps(s, Destroy(s).0);
  }

  const NO_TALLY := Tally(0, 0, 0, 0, 0, 0, 0)

  lemma NothingTallied(cs: seq<Chunk>, threshold: nat)
    ensures Tallies(cs[..0], threshold, NO_TALLY) && Placements(cs[..0]) == []
    ensures forall h :: AssignedTo(cs[..0], h) == 0 && UsableOn(cs[..0], h) == 0
  {}

  function Counted(t: Tally, c: Chunk, threshold: nat): Tally {
    Tally(if IsAssigned(c) then t.assignedCount + 1 else t.assignedCount,
          if c.phase.Mapped? then t.usableCount + 1 else t.usableCount,
          t.leases + c.leases,
          if c.phase.Mapping? then t.mapping + 1 else t.mapping,
          if c.phase.Evicting? then t.evicting + 1 else t.evicting,
          if c.activity >= threshold then t.hot + 1 else t.hot,
          if c.activity >= threshold && c.phase.Unmapped? then t.wanted + 1 else t.wanted)
  }

  lemma TallyNext(cs: seq<Chunk>, n: nat, threshold: nat, t: Tally)
    requires n < |cs| && Tallies(cs[..n], threshold, t)
    ensures Tallies(cs[..n + 1], threshold, Counted(t, cs[n], threshold))
  {
    hide AssignedSet, MappedSet, MappingSet, EvictingSet, LeaseSum, HotSet, WantedSet;
    PhaseCounts(cs, n);
    HotCounts(cs, n, threshold);
    LeaseSumNext(cs, n, NO_PROVIDER);
  }

  lemma PhaseCounts(cs: seq<Chunk>, n: nat)
    requires n < |cs|
    ensures |AssignedSet(cs[..n + 1])| == |AssignedSet(cs[..n])| + (if IsAssigned(cs[n]) then 1 else 0)
    ensures |MappedSet(cs[..n + 1])| == |MappedSet(cs[..n])| + (if cs[n].phase.Mapped? then 1 else 0)
    ensures |MappingSet(cs[..n + 1])| == |MappingSet(cs[..n])| + (if cs[n].phase.Mapping? then 1 else 0)
    ensures |EvictingSet(cs[..n + 1])| == |EvictingSet(cs[..n])| + (if cs[n].phase.Evicting? then 1 else 0)
  {
    hide AssignedSet, MappedSet, MappingSet, EvictingSet;
    PhaseNext(cs, n);
  }

  lemma HotCounts(cs: seq<Chunk>, n: nat, threshold: nat)
    requires n < |cs|
    ensures |HotSet(cs[..n + 1], threshold)| == |HotSet(cs[..n], threshold)| + (if cs[n].activity >= threshold then 1 else 0)
    ensures |WantedSet(cs[..n + 1], threshold)| ==
      |WantedSet(cs[..n], threshold)| + (if cs[n].activity >= threshold && cs[n].phase.Unmapped? then 1 else 0)
  {
    hide HotSet, WantedSet;
    HotNext(cs, n, threshold);
  }

  lemma HotNext(cs: seq<Chunk>, n: nat, threshold: nat)
    requires n < |cs|
    ensures HotSet(cs[..n + 1], threshold) == HotSet(cs[..n], threshold) + (if cs[n].activity >= threshold then {n} else {})
    ensures WantedSet(cs[..n + 1], threshold) ==
      WantedSet(cs[..n], threshold) + (if cs[n].activity >= threshold && cs[n].phase.Unmapped? then {n} else {})
    ensures n !in HotSet(cs[..n], threshold) && n !in WantedSet(cs[..n], threshold)
  {}

  lemma UsableNext(cs: seq<Chunk>, n: nat, h: Handle)
    requires n < |cs|
    ensures UsableOn(cs[..n + 1], h) == UsableOn(cs[..n], h) + (if cs[n].phase.Mapped? && cs[n].provider == h then 1 else 0)
  {
    UsableJoins(cs, n, h);
    hide UsableSet;
  }

  lemma UsableJoins(cs: seq<Chunk>, n: nat, h: Handle)
    requires n < |cs|
    ensures UsableSet(cs[..n + 1], h) == UsableSet(cs[..n], h) + (if cs[n].phase.Mapped? && cs[n].provider == h then {n} else {})
    ensures n !in UsableSet(cs[..n], h)
  {}

  lemma PlacementNext(cs: seq<Chunk>, n: nat)
    requires n < |cs|
    ensures Placements(cs[..n + 1]) ==
      Placements(cs[..n]) + if IsAssigned(cs[n]) then [Placement(cs[n].provider, n, cs[n].phase.Mapped?)] else []
  {
    assert cs[..n + 1][..n] == cs[..n];
  }

  // The placements are the assigned chunks, each once and in order.
  lemma {:induction false} PlacementsExact(cs: seq<Chunk>)
    ensures var ps := Placements(cs);
      && (forall k :: 0 <= k < |ps| ==>
            && ps[k].chunk < |cs| && IsAssigned(cs[ps[k].chunk])
            && ps[k] == Placement(cs[ps[k].chunk].provider, ps[k].chunk, cs[ps[k].chunk].phase.Mapped?))
      && (forall j, k :: 0 <= j < k < |ps| ==> ps[j].chunk < ps[k].chunk)
      && forall i :: 0 <= i < |cs| && IsAssigned(cs[i]) ==> exists k :: 0 <= k < |ps| && ps[k].chunk == i
  {
    if cs != [] {
      var n := |cs| - 1;
      PlacementsExact(cs[..n]);
      var before, after := Placements(cs[..n]), Placements(cs);
      assert forall k :: 0 <= k < |before| ==> after[k] == before[k];
      forall i | 0 <= i < |cs| && IsAssigned(cs[i]) ensures exists k :: 0 <= k < |after| && after[k].chunk == i {
        if i < n {
          assert cs[..n][i] == cs[i];
          var k :| 0 <= k < |before| && before[k].chunk == i;
          assert after[k].chunk == i;
        } else {
          assert after[|before|].chunk == n;
        }
      }
    }
  }

  // One more chunk: the report of the Provider it is placed on counts it, no other does.
  lemma ReportNext(s: State, n: nat, i: nat, k: nat, r: ProviderReport)
    requires Inv(s) && n < |s.chunks| && i < |s.providers| && ReportsProvider(s, s.chunks[..n], i, r)
    requires IsAssigned(s.chunks[n]) ==> RosterIndex(s, s.chunks[n].provider) == Some(k)
    ensures var mine := IsAssigned(s.chunks[n]) && i == k;
      ReportsProvider(s, s.chunks[..n + 1], i,
        r.(assignedCount := if mine then r.assignedCount + 1 else r.assignedCount,
           usableCount := if mine && s.chunks[n].phase.Mapped? then r.usableCount + 1 else r.usableCount))
  {
    hide AssignedTo, UsableOn, Diagnostic;
    AssignedNext(s.chunks, n, s.providers[i].handle);
    UsableNext(s.chunks, n, s.providers[i].handle);
    if IsAssigned(s.chunks[n]) { RosterExact(s, s.chunks[n].provider, k, i); }
  }

  lemma RosterExact(s: State, h: Handle, k: nat, i: nat)
    requires Shape(s) && RosterIndex(s, h) == Some(k) && i < |s.providers|
    ensures s.providers[i].handle == h <==> i == k
  {}

  lemma ChunkIsPlaced(s: State, i: nat)
    requires Inv(s) && i < |s.chunks| && IsAssigned(s.chunks[i])
    ensures RosterIndex(s, s.chunks[i].provider).Some?
  {
    assert ChunkOk(s, i);
    LiveIffSlot(s, s.chunks[i].provider);
  }

  lemma TallyAgrees(s: State, t: Tally)
    requires Inv(s) && Tallies(s.chunks, s.hot.threshold, t)
    ensures t.assignedCount == s.assignedCount && t.usableCount == s.usableCount && t.leases == s.leases
  {}

  // ------------------------------------------------------------------ digests

  method BatchDigest(selected: array<bool>) returns (digest: nat)
    ensures digest == Digest(selected[..])
  {
    digest := DIGEST_OFFSET;
    for index := 0 to selected.Length
      invariant digest == Digest(selected[..index])
    {
      assert selected[..index + 1][..index] == selected[..index];
      if selected[index] {
        digest := Xor(digest, index + 1) * DIGEST_PRIME % U64_SIZE;
      }
    }
    WholePrefix(selected[..]);
  }

  method SingleDigest(count: nat, chunk: nat) returns (digest: nat)
    requires chunk < count
    ensures digest == Digest(Selection(count, {chunk}))
  {
    hide Digest;
    var selected := new bool[count](_ => false);
    selected[chunk] := true;
    digest := BatchDigest(selected);
    assert selected[..] == Selection(count, {chunk});
  }

  class RemoteChunks {
    const mode: Mode
    const chunks: array<Chunk>
    const providers: array<Provider>
    const words: array<Word>         // one bit a sector
    const candidates: array<int>     // placement scratch space
    const samples: array<int>
    const sampleSize: nat
    const epoch: nat
    var hot: HotPolicy
    var lastMappingClaim: nat
    var lastEvictionClaim: nat
    var lastTransition: nat
    var lastGeneration: nat
    var lastLease: nat
    var invariants: nat
    var latestInvariant: InvariantEvent
    var activeClaim: MappingClaim
    var endedClaim: MappingClaim
    var endedAction: Terminal
    var mappingClaims: nat
    var evictionClaims: nat
    var leases: nat
    var assignedCount: nat
    var usableCount: nat
    var quiescing: bool
    var waits: nat                   // threads that wait for an eviction to drain

    ghost function Model(): State
      reads this, chunks, providers, words
    {
      State(mode, chunks[..], providers[..], Members(words[..]), sampleSize, hot, epoch,
            lastMappingClaim, lastEvictionClaim, lastTransition, lastGeneration, lastLease,
            invariants, latestInvariant, activeClaim, endedClaim, endedAction,
            mappingClaims, evictionClaims, leases, assignedCount, usableCount, quiescing, waits)
    }

    ghost predicate Valid()
      reads this, chunks, providers, words
    {
      && candidates != samples && candidates.Length == samples.Length == providers.Length
      && WORD_BITS * words.Length == chunks.Length * SECTORS_PER_CHUNK && sampleSize > 0
      && Inv(Model())
    }

    // ------------------------------------------------------------- providers

    method RosterFind(h: Handle) returns (r: Option<nat>)
      requires Valid()
      ensures r == RosterIndex(Model(), h)
    {
      hide Inv;
      ghost var s := Model();
      for index := 0 to providers.Length
        invariant RosterIndex(s, h) == RosterFrom(s.providers, h, index)
      {
        if providers[index].handle == h { return Some(index); }
      }
      return None;
    }

    method IsLive(h: Handle) returns (live: bool)
      requires Valid()
      ensures live == Live(Model(), h)
    {
      hide Inv;
      var r := RosterFind(h);
      live := r.Some? && !providers[r.value].failed;
    }

    method CountDebits(h: Handle) returns (assignedChunks: nat, mappingChunks: nat)
      requires Valid()
      ensures assignedChunks == AssignedTo(chunks[..], h) && assignedChunks + mappingChunks == Debits(chunks[..], h)
    {
      hide Inv, Debits, AssignedTo;
      assignedChunks, mappingChunks := 0, 0;
      NoDebits(h);
      for index := 0 to chunks.Length
        invariant assignedChunks == AssignedTo(chunks[..index], h)
        invariant assignedChunks + mappingChunks == Debits(chunks[..index], h)
      {
        DebitsNext(chunks[..], index, h);
        assert chunks[..][..index] == chunks[..index] && chunks[..][..index + 1] == chunks[..index + 1];
        var chunk := chunks[index];
        if chunk.phase.Unmapped? || chunk.provider != h {
        } else if chunk.phase.Mapping? {
          mappingChunks := mappingChunks + 1;
        } else {
          assignedChunks := assignedChunks + 1;
        }
      }
      WholePrefix(chunks[..]);
    }

    lemma NoDebits(h: Handle)
      ensures AssignedTo(chunks[..0], h) == 0 && Debits(chunks[..0], h) == 0
    {}

    method EffectiveAvailable(index: nat) returns (available: nat)
      requires Valid() && index < providers.Length
      ensures available == Available(Model(), index)
    {
      hide Inv, Debits, AssignedTo;
      var p := providers[index];
      if p.failed || !p.observed || !p.eligible { return 0; }
      var assignedChunks, mappingChunks := CountDebits(p.handle);
      available := Reconcile(p.reported, p.observedDebits, assignedChunks + mappingChunks);
    }

    method Observe(h: Handle, o: Observation) returns (r: ObserveResult)
      requires Valid()
      modifies providers
      ensures Valid() && (Model(), r) == ChunkState.Observe(old(Model()), h, o)
    {
      hide Inv, Debits, AssignedTo, ObservationValid;
      ghost var s := Model();
      if !HandleWellFormed(h) || !ObservationValid(o) { return InvalidObservation; }
      if quiescing { return ObserveShutdown; }
      var found := RosterFind(h);
      if found.None? { return StaleEpoch; }
      var index := found.value;
      var p := providers[index];
      if p.failed { return StaleEpoch; }
      if p.observed && o.sequence < p.sequence { return StaleObservation; }
      if p.observed && o.sequence == p.sequence {
        return if p.reported == o.available && p.exclusion == o.exclusion && p.eligible == o.eligible
          then RepeatObservation else ConflictObservation;
      }
      var assignedChunks, mappingChunks := CountDebits(h);
      providers[index] := p.(reported := o.available, observedAssigned := assignedChunks,
                             observedDebits := assignedChunks + mappingChunks, sequence := o.sequence,
                             exclusion := o.exclusion, eligible := o.eligible, observed := true);
      r := Applied;
      ObserveKeeps(s, h, o);
      assert providers[..] == s.providers[index := providers[index]];
    }

    // Adds the weight to each chunk of the range; says whether one of them now wants a mapping.
    method WarmRange(start: nat, count: nat, weight: nat) returns (needed: bool)
      requires start + count <= chunks.Length && mode.Backed?
      modifies chunks
      ensures forall i :: 0 <= i < chunks.Length ==>
        chunks[i] == if start <= i < start + count then Warm(old(chunks[i]), weight) else old(chunks[i])
      ensures needed <==> exists i :: start <= i < start + count && Wanted(Model(), chunks[i])
    {
      hide Members;
      needed := false;
      for index := start to start + count
        invariant forall i :: 0 <= i < chunks.Length ==>
          chunks[i] == if start <= i < index then Warm(old(chunks[i]), weight) else old(chunks[i])
        invariant needed <==> exists i :: start <= i < index && Wanted(Model(), chunks[i])
      {
        chunks[index] := Warm(chunks[index], weight);
        if chunks[index].phase.Unmapped? && chunks[index].activity >= hot.threshold { needed := true; }
      }
    }

    method NoteActivity(start: nat, count: nat, write: bool) returns (status: Status, needed: bool)
      requires Valid()
      modifies chunks
      ensures Valid() && Model() == ChunkState.NoteActivity(old(Model()), start, count, write)
      ensures status == ActivityStatus(old(Model()), start, count)
      ensures needed <==> status == Ok && exists i :: start <= i < start + count && Wanted(Model(), chunks[i])
    {
      hide Inv, Wanted, Warm, Members;
      ghost var s := Model();
      status, needed := Ok, false;
      if count == 0 { return EInval, false; }
      if start >= chunks.Length || count > chunks.Length - start { return ERange, false; }
      if quiescing { return EShutdown, false; }
      if !mode.Backed? { return ENotSupported, false; }
      needed := WarmRange(start, count, if write then hot.writeWeight else hot.readWeight);
      NoteActivityKeeps(s, start, count, write);
      assert Model().chunks == ChunkState.NoteActivity(s, start, count, write).chunks;
    }

    // ------------------------------------------------------------- placement

    // Pending Providers are those that have not failed and not reported yet.
    method HasPending() returns (pending: bool)
      requires Valid()
      ensures pending == SomePending(Model())
    {
      hide Inv;
      pending := false;
      for index := 0 to providers.Length
        invariant pending == exists i :: 0 <= i < index && !providers[i].failed && !providers[i].observed
      {
        if !providers[index].failed && !providers[index].observed { pending := true; }
      }
    }

    method FindWanted() returns (r: Option<nat>)
      requires Valid()
      ensures r == FirstWanted(Model(), 0)
    {
      hide Inv;
      ghost var s := Model();
      for index := 0 to chunks.Length
        invariant FirstWanted(s, 0) == FirstWanted(s, index)
      {
        if chunks[index].phase.Unmapped? && (mode.RemoteOnly? || chunks[index].activity >= hot.threshold) {
          return Some(index);
        }
      }
      return None;
    }

    method CollectEligible() returns (count: nat, aggregate: nat)
      requires Valid()
      modifies candidates
      ensures count <= candidates.Length && candidates[..count] == Eligible(Model(), providers.Length)
      ensures aggregate == Aggregate(Model(), providers.Length)
    {
      hide Inv, Available;
      ghost var s := Model();
      count, aggregate := 0, 0;
      for index := 0 to providers.Length
        invariant count <= index && candidates[..count] == Eligible(s, index) && aggregate == Aggregate(s, index)
        invariant Valid() && Model() == s
      {
        var available := EffectiveAvailable(index);
        aggregate := aggregate + available;
        if available > 0 {
          candidates[count] := index;
          count := count + 1;
          assert candidates[..count] == Eligible(s, index) + [index];
        }
      }
    }

    method WeightOf(count: nat) returns (total: nat)
      requires Valid() && count <= candidates.Length && Indices(Model(), candidates[..count])
      ensures total == TotalWeight(Model(), candidates[..count])
    {
      hide Inv;
      ghost var s := Model();
      total := 0;
      for index := 0 to count
        invariant total == TotalWeight(s, candidates[..count][..index])
      {
        WeightNext(s, candidates[..count], index);
        total := total + providers[candidates[index]].weight;
      }
      WholePrefix(candidates[..count]);
    }

    method LocatePick(count: nat, pick: nat) returns (selected: nat)
      requires Valid() && count <= candidates.Length && Indices(Model(), candidates[..count])
      ensures selected == Locate(Model(), candidates[..count], pick, 0)
    {
      hide Inv;
      ghost var s := Model();
      ghost var cs := candidates[..count];
      var cursor := 0;
      for index := 0 to count
        invariant cursor == TotalWeight(s, cs[..index])
        invariant Locate(s, cs, pick, 0) == Locate(s, cs, pick, index)
      {
        WeightNext(s, cs, index);
        cursor := cursor + providers[candidates[index]].weight;
        if pick < cursor { return index; }
      }
      return 0;
    }

    // Moves one weighted pick from `candidates` to `samples`; the last candidate takes its place.
    method DrawOne(remaining: nat, sampled: nat, draws: seq<nat>)
      requires Valid() && sampled < samples.Length
      requires 0 < remaining <= candidates.Length && Indices(Model(), candidates[..remaining])
      modifies candidates, samples
      ensures var cs := old(candidates[..remaining]);
        var k := Locate(Model(), cs, Draw(draws, sampled, TotalWeight(Model(), cs)), 0);
        && samples[..sampled + 1] == old(samples[..sampled]) + [cs[k]]
        && candidates[..remaining - 1] == SwapOut(cs, k)
    {
      hide Inv, Locate, TotalWeight;
      var total := WeightOf(remaining);
      var selected := LocatePick(remaining, Draw(draws, sampled, total));
      samples[sampled] := candidates[selected];
      candidates[selected] := candidates[remaining - 1];
    }

    method DrawSample(count: nat, size: nat, draws: seq<nat>)
      requires Valid() && size <= count <= candidates.Length && Indices(Model(), candidates[..count])
      modifies candidates, samples
      ensures samples[..size] == Sample(Model(), old(candidates[..count]), size, draws, 0)
    {
      hide Inv, Locate, Sample, TotalWeight, SwapOut;
      ghost var s := Model();
      ghost var whole := Sample(s, candidates[..count], size, draws, 0);
      var sampled := 0;
      while sampled < size
        invariant sampled <= size && Valid() && Model() == s && Indices(s, candidates[..count - sampled])
        invariant samples[..sampled] + Sample(s, candidates[..count - sampled], size - sampled, draws, sampled) == whole
      {
        ghost var done, rest := samples[..sampled], candidates[..count - sampled];
        SampleStep(s, rest, size - sampled, draws, sampled);
        DrawOne(count - sampled, sampled, draws);
        sampled := sampled + 1;
        Regroup(done, samples[..sampled], Sample(s, candidates[..count - sampled], size - sampled, draws, sampled));
      }
      assert samples[..size] == whole by { NoSample(s, candidates[..count - size], draws, size); }
    }

    method ChooseProvider(count: nat, draws: seq<nat>) returns (chosen: nat)
      requires Valid() && 0 < count <= candidates.Length && Indices(Model(), candidates[..count])
      modifies candidates, samples
      ensures chosen == Choose(Model(), old(candidates[..count]), draws) < providers.Length
    {
      hide Inv, Sample, Available, Best;
      var size := if sampleSize > count then count else sampleSize;
      DrawSample(count, size, draws);
      chosen := MostAvailable(size);
    }

    // The sampled Provider with the most room; among equals the one with the lowest index.
    method MostAvailable(size: nat) returns (chosen: nat)
      requires Valid() && 0 < size <= samples.Length && Indices(Model(), samples[..size])
      ensures chosen == Best(Model(), samples[..size]) < providers.Length
    {
      hide Inv, Available;
      ghost var s := Model();
      ghost var sample := samples[..size];
      chosen := samples[0];
      var best := EffectiveAvailable(chosen);
      for index := 1 to size
        invariant chosen == Best(s, sample[..index]) && 0 <= chosen < providers.Length && best == Available(s, chosen)
      {
        var candidate := samples[index];
        var available := EffectiveAvailable(candidate);
        assert sample[..index + 1][..index] == sample[..index];
        if available > best || (available == best && candidate < chosen) {
          chosen, best := candidate, available;
        }
      }
      assert sample[..size] == sample;
    }

    // ---------------------------------------------------------- mapping claims

    // Forgets the claim that ended last.
    method Supersede()
      modifies this
      ensures Model() == old(Model()).(endedClaim := NO_CLAIM, endedAction := NoTerminal)
    {
      hide Members;
      endedClaim, endedAction := NO_CLAIM, NoTerminal;
      assert chunks[..] == old(chunks[..]) && providers[..] == old(providers[..]) && words[..] == old(words[..]);
    }

    // Takes the next claim number and marks the chunk as being mapped.
    method OpenClaim(h: Handle, chunk: nat)
      requires Valid() && chunk < chunks.Length
      modifies this, chunks
      ensures Model() == ClaimOpened(old(Model()), h, chunk)
    {
      hide Inv, Digest, Members, Selection;
      ghost var s := Model();
      var digest := SingleDigest(chunks.Length, chunk);
      lastMappingClaim, lastTransition := lastMappingClaim + 1, lastTransition + 1;
      Supersede();
      activeClaim := MappingClaim(true, epoch, h, lastMappingClaim, lastTransition, digest, 1, 1);
      chunks[chunk] := chunks[chunk].(phase := Mapping, provider := h, mappingClaim := lastMappingClaim,
                                      transition := lastTransition);
      mappingClaims := mappingClaims + 1;
      assert chunks[..] == s.chunks[chunk := chunks[chunk]];
    }

    method CreateClaim(h: Handle, chunk: nat) returns (r: NextResult)
      requires Valid() && chunk < chunks.Length
      modifies this, chunks
      ensures (Model(), r) == ChunkState.CreateClaim(old(Model()), h, chunk)
    {
      hide Inv, Digest, Live, Members, ClaimOpened, NewClaim;
      var live := IsLive(h);
      if !live { return NextInvalid; }
      if mappingClaims != 0 || !chunks[chunk].phase.Unmapped? { return ClaimActive; }
      if lastMappingClaim >= ID_MAX || lastTransition >= ID_MAX { return NextInvalid; }
      ghost var s := Model();
      OpenClaim(h, chunk);
      OpenedClaim(s, h, chunk);
      r := RequestMapping(h, if mode.RemoteOnly? then CommittedPool else OpportunisticPool, chunk, activeClaim);
    }

    method NextMapping(draws: seq<nat>) returns (r: NextResult)
      requires Valid()
      modifies this, chunks, candidates, samples
      ensures Valid() && (Model(), r) == ChunkState.NextMapping(old(Model()), draws)
    {
      hide Inv, SomePending, FirstWanted, Eligible, Aggregate, Choose, ChunkState.CreateClaim;
      ghost var s := Model();
      NextMappingKeeps(s, draws);
      if quiescing { return NextShutdown; }
      if mappingClaims != 0 { return ClaimActive; }
      if mode.RemoteOnly? {
        var waiting := HasPending();
        if waiting { return PendingFacts; }
        if usableCount == chunks.Length { return MappingComplete; }
      }
      var wanted := FindWanted();
      if wanted.None? { return if mode.RemoteOnly? then NextInvalid else NoHotRange; }
      var count, aggregate := CollectEligible();
      if mode.RemoteOnly? && assignedCount == 0 && aggregate < chunks.Length { return InsufficientCapacity; }
      if count == 0 {
        var pending := HasPending();
        return if pending then PendingFacts else NoCapacity;
      }
      var p := ChooseProvider(count, draws);
      r := CreateClaim(providers[p].handle, wanted.value);
    }

    // The members of a mapping or eviction batch, checked and digested in one pass.
    method TallyBatch(evicting: bool, id: nat, transition: nat, h: Handle)
      returns (uniform: bool, members: nat, digest: nat)
      requires Valid()
      ensures uniform == BatchUniform(chunks[..], evicting, id, transition, h)
      ensures uniform ==>
        members == |Batch(chunks[..], evicting, id)| && digest == Digest(Selection(chunks.Length, Batch(chunks[..], evicting, id)))
    {
      hide Inv, Digest, Batch, InBatch, Matches, Members, Selection;
      members, digest := 0, 0;
      var selected := new bool[chunks.Length](_ => false);
      ghost var cs := chunks[..];
      NoBatch(cs, evicting, id);
      for index := 0 to chunks.Length
        invariant chunks[..] == cs && fresh(selected)
        invariant forall j :: 0 <= j < chunks.Length ==> selected[j] == (j < index && InBatch(chunks[j], evicting, id))
        invariant members == |Batch(cs[..index], evicting, id)|
        invariant forall j :: 0 <= j < index && InBatch(cs[j], evicting, id) ==> Matches(cs[j], evicting, transition, h)
      {
        BatchCount(cs, index, evicting, id);
        if InBatch(chunks[index], evicting, id) {
          if !Matches(chunks[index], evicting, transition, h) { return false, 0, 0; }
          selected[index] := true;
          members := members + 1;
        }
      }
      uniform := true;
      WholePrefix(cs);
      digest := BatchDigest(selected);
      SelectedBatch(selected[..], cs, evicting, id);
    }

    method ClaimIsCurrent(c: MappingClaim) returns (active: bool)
      requires Valid()
      ensures active == ClaimIsActive(Model(), c)
    {
      hide Inv, Live, Digest, Selection;
      if c != activeClaim || c.count > chunks.Length { return false; }
      var live := IsLive(c.provider);
      if !live { return false; }
      var uniform, members, digest := TallyBatch(false, c.id, c.transition, c.provider);
      active := uniform && members == c.count && digest == c.digest;
    }

    method GrantsFit(c: MappingClaim, grants: seq<Grant>) returns (fit: bool)
      requires Valid()
      ensures fit == GrantsShaped(Model(), c, grants)
    {
      hide Inv, Digest, GrantUsable;
      ghost var s := Model();
      if |grants| != c.count || |grants| != c.debit { return false; }
      var selected := new bool[chunks.Length](_ => false);
      for index := 0 to |grants|
        invariant Model() == s && fresh(selected)
        invariant forall k :: 0 <= k < index ==> GrantUsable(s, grants[k]) && grants[k].chunk < chunks.Length
        invariant forall j, k :: 0 <= j < k < index ==>
          grants[j].chunk != grants[k].chunk && grants[j].providerChunk != grants[k].providerChunk
        invariant forall i :: 0 <= i < chunks.Length ==> selected[i] == (exists k :: 0 <= k < index && grants[k].chunk == i)
      {
        var g := grants[index];
        UsableMeans(s, g);
        if g.chunk >= chunks.Length || g.address == 0 || g.key == 0
           || g.address > ID_MAX - (SECTORS_PER_CHUNK * SECTOR_BYTES - 1) || selected[g.chunk] {
          return false;
        }
        selected[g.chunk] := true;
        for other := 0 to index
          invariant forall k :: 0 <= k < other ==> grants[k].providerChunk != g.providerChunk
        {
          if grants[other].providerChunk == g.providerChunk { return false; }
        }
      }
      assert selected[..] == Selection(chunks.Length, GrantedChunks(grants));
      var digest := BatchDigest(selected);
      fit := digest == c.digest;
    }

    method GrantsFree(c: MappingClaim, grants: seq<Grant>) returns (free: bool)
      requires Valid() && forall k :: 0 <= k < |grants| ==> grants[k].chunk < chunks.Length
      ensures free == forall k :: 0 <= k < |grants| ==> GrantAvailable(Model(), c, grants[k])
    {
      hide Inv;
      for index := 0 to |grants|
        invariant forall k :: 0 <= k < index ==> GrantAvailable(Model(), c, grants[k])
      {
        var g := grants[index];
        var chunk := chunks[g.chunk];
        if !chunk.phase.Mapping? || chunk.mappingClaim != c.id || chunk.transition != c.transition
           || chunk.provider != c.provider {
          return false;
        }
        for other := 0 to chunks.Length
          invariant forall i :: 0 <= i < other && IsAssigned(chunks[i]) && chunks[i].provider == c.provider ==>
            chunks[i].providerChunk != g.providerChunk
        {
          if IsAssigned(chunks[other]) && chunks[other].providerChunk == g.providerChunk
             && chunks[other].provider == c.provider {
            return false;
          }
        }
      }
      return true;
    }

    method GrantsMatch(c: MappingClaim, grants: seq<Grant>) returns (all: bool)
      requires Valid() && forall k :: 0 <= k < |grants| ==> grants[k].chunk < chunks.Length
      ensures all == forall k :: 0 <= k < |grants| ==> GrantMatches(Model(), c, grants[k])
    {
      hide Inv;
      for index := 0 to |grants|
        invariant forall k :: 0 <= k < index ==> GrantMatches(Model(), c, grants[k])
      {
        var g := grants[index];
        var chunk := chunks[g.chunk];
        if !chunk.phase.Mapped? || chunk.provider != c.provider || chunk.providerChunk != g.providerChunk
           || chunk.address != g.address || chunk.key != g.key {
          return false;
        }
      }
      return true;
    }

    // A finish call that repeats the one recorded last.
    method RepeatedFinish(c: MappingClaim, action: FinishAction, h: Handle, grants: seq<Grant>) returns (r: FinishResult)
      requires Valid() && c == endedClaim && ClaimWellFormed(c) && HandleWellFormed(h) && c.count <= chunks.Length
      requires c.epoch == epoch && Live(Model(), c.provider) && (action.Abort? ==> grants == [])
      ensures (Model(), r) == ChunkState.FinishMapping(Model(), c, action, h, grants)
    {
      hide Inv, Live, ApplyGrants, ClaimIsActive, GrantsShaped, GrantMatches, GrantAvailable, Unclaim, Members;
      if h != c.provider {
        var live := IsLive(h);
        return if live then Conflict else Stale;
      }
      if action.Commit? {
        var fit := GrantsFit(c, grants);
        if !fit { return InvalidGrant; }
        ShapedInRange(Model(), c, grants);
        var matching := GrantsMatch(c, grants);
        return if endedAction.CommitTerminal? && matching then Duplicate else Conflict;
      }
      return if endedAction.AbortTerminal? then Duplicate else Conflict;
    }

    // The checks that stand before an abort or a commit of the open claim.
    method OpenFinish(c: MappingClaim, action: FinishAction, h: Handle, grants: seq<Grant>) returns (r: FinishResult)
      requires Valid() && c != endedClaim && ClaimWellFormed(c) && HandleWellFormed(h) && c.count <= chunks.Length
      requires c.epoch == epoch && Live(Model(), c.provider) && (action.Abort? ==> grants == [])
      ensures r == ChunkState.FinishMapping(Model(), c, action, h, grants).1
    {
      hide Inv, Live, ApplyGrants, ClaimIsActive, GrantsShaped, GrantMatches, GrantAvailable, Unclaim, Members;
      if c.id > lastMappingClaim || c.transition > lastTransition { return Invalid; }
      var active := ClaimIsCurrent(c);
      if !active { return Stale; }
      if h != c.provider {
        var live := IsLive(h);
        return if live then Conflict else Stale;
      }
      if action.Abort? { return if mappingClaims == 0 then Invalid else Aborted; }
      var fit := GrantsFit(c, grants);
      if !fit { return InvalidGrant; }
      if quiescing { return Shutdown; }
      if mappingClaims == 0 { return Invalid; }
      ShapedInRange(Model(), c, grants);
      var free := GrantsFree(c, grants);
      if !free { return InvalidGrant; }
      if lastGeneration > ID_MAX - |grants| || assignedCount + c.debit > U32_MAX || usableCount + c.debit > U32_MAX {
        return Exhausted;
      }
      return Committed;
    }

    method EndClaim(c: MappingClaim, action: Terminal)
      modifies this
      ensures Model() == ChunkState.EndClaim(old(Model()), c, action)
    {
      hide Members;
      endedClaim, endedAction, activeClaim := c, action, NO_CLAIM;
      assert chunks[..] == old(chunks[..]) && providers[..] == old(providers[..]) && words[..] == old(words[..]);
    }

    method AbortClaim(c: MappingClaim)
      requires Valid() && mappingClaims > 0
      modifies this, chunks
      ensures Model() == ChunkState.EndClaim(
        old(Model()).(chunks := Unclaim(old(chunks[..]), c.id), mappingClaims := old(mappingClaims) - 1), c, AbortTerminal)
    {
      hide Inv, Members;
      ghost var cs := chunks[..];
      for index := 0 to chunks.Length
        modifies chunks
        invariant forall i :: 0 <= i < chunks.Length ==> chunks[i] == if i < index then Unclaim(cs, c.id)[i] else cs[i]
      {
        if chunks[index].mappingClaim == c.id {
          chunks[index] := chunks[index].(provider := NO_PROVIDER, mappingClaim := 0, transition := 0, phase := Unmapped);
        }
      }
      assert chunks[..] == Unclaim(cs, c.id);
      mappingClaims := mappingClaims - 1;
      EndClaim(c, AbortTerminal);
    }

    method ClearChunk(i: nat)
      requires i < chunks.Length && WORD_BITS * words.Length == chunks.Length * SECTORS_PER_CHUNK
      modifies words
      ensures Members(words[..]) == old(Members(words[..])) - ChunkSectors(i)
    {
      hide Members, Range;
      assert (i + 1) * SECTORS_PER_CHUNK <= chunks.Length * SECTORS_PER_CHUNK;
      var done := Apply(words, i * SECTORS_PER_CHUNK, SECTORS_PER_CHUNK, Clear);
    }

    method PlaceGrants(grants: seq<Grant>)
      requires Valid() && forall k :: 0 <= k < |grants| ==> grants[k].chunk < chunks.Length
      modifies this`lastGeneration, chunks, words
      ensures Model() == ApplyGrants(old(Model()), grants)
    {
      hide Inv, Members, ChunkSectors;
      ghost var s := Model();
      for index := 0 to |grants|
        invariant Model() == ApplyGrants(s, grants[..index])
      {
        var g := grants[index];
        ghost var t := Model();
        assert grants[..index + 1][..index] == grants[..index];
        lastGeneration := lastGeneration + 1;
        chunks[g.chunk] := Grown(chunks[g.chunk], g, lastGeneration);
        ClearChunk(g.chunk);
        assert chunks[..] == t.chunks[g.chunk := chunks[g.chunk]];
      }
      WholePrefix(grants);
    }

    method CommitClaim(c: MappingClaim, grants: seq<Grant>)
      requires Valid() && mappingClaims > 0 && forall k :: 0 <= k < |grants| ==> grants[k].chunk < chunks.Length
      modifies this, chunks, words
      ensures Model() == ChunkState.EndClaim(
        ApplyGrants(old(Model()), grants).(
          assignedCount := old(assignedCount) + c.debit, usableCount := old(usableCount) + c.debit,
          mappingClaims := old(mappingClaims) - 1), c, CommitTerminal)
    {
      hide Inv, Members, ApplyGrants;
      PlaceGrants(grants);
      assignedCount, usableCount := assignedCount + c.debit, usableCount + c.debit;
      mappingClaims := mappingClaims - 1;
      EndClaim(c, CommitTerminal);
    }

    method FinishMapping(c: MappingClaim, action: FinishAction, h: Handle, grants: seq<Grant>) returns (r: FinishResult)
      requires Valid()
      modifies this, chunks, words
      ensures Valid() && (Model(), r) == ChunkState.FinishMapping(old(Model()), c, action, h, grants)
    {
      hide Inv, Live, ChunkState.FinishMapping, ChunkState.EndClaim, ApplyGrants, Unclaim, Members;
      ghost var s := Model();
      FinishMappingKeeps(s, c, action, h, grants);
      var live := IsLive(c.provider);
      if !HandleWellFormed(h) || !ClaimWellFormed(c) || c.count > chunks.Length || (action.Abort? && grants != []) {
        r := Invalid;
        EarlyFinish(s, c, action, h, grants);
      } else if c.epoch != epoch || !live {
        r := Stale;
        EarlyFinish(s, c, action, h, grants);
      } else if c == endedClaim {
        r := RepeatedFinish(c, action, h, grants);
      } else {
        r := OpenFinish(c, action, h, grants);
        FinishedMeans(s, c, action, h, grants);
        if r.Aborted? {
          AbortClaim(c);
        } else if r.Committed? {
          CommitClaim(c, grants);
        }
      }
    }

    // --------------------------------------------------------------- evictions

    method FindProviderChunk(h: Handle, id: nat) returns (r: Option<nat>)
      requires Valid()
      ensures r == FindChunk(Model(), h, id, 0)
    {
      hide Inv;
      ghost var s := Model();
      for index := 0 to chunks.Length
        invariant FindChunk(s, h, id, 0) == FindChunk(s, h, id, index)
      {
        if chunks[index].phase.Mapped? && chunks[index].providerChunk == id && chunks[index].provider == h {
          return Some(index);
        }
      }
      return None;
    }

    method EvictionStatus(c: EvictionClaim) returns (status: Status)
      requires Valid()
      ensures status == CheckEviction(Model(), c)
    {
      hide Inv, Live, Digest, Selection;
      if !c.tagged || c.id == 0 || c.transition == 0 || c.count == 0 { return EInval; }
      var live := IsLive(c.provider);
      if c.epoch != epoch || !live { return EStale; }
      if c.count > chunks.Length { return EInval; }
      var uniform, members, digest := TallyBatch(true, c.id, c.transition, c.provider);
      status := if !uniform || members != c.count || digest != c.digest then EStale else Ok;
    }

    method SelectChunks(h: Handle, ids: seq<nat>, selected: array<bool>) returns (status: Status)
      requires Valid() && selected.Length == chunks.Length && forall i :: 0 <= i < chunks.Length ==> !selected[i]
      modifies selected
      ensures status == SelectBatch(Model(), h, ids, |ids|).1
      ensures status.Ok? ==> selected[..] == Selection(chunks.Length, SelectBatch(Model(), h, ids, |ids|).0)
    {
      hide Inv, FindChunk;
      ghost var s := Model();
      for index := 0 to |ids|
        invariant Valid() && Model() == s && SelectBatch(s, h, ids, index).1.Ok?
        invariant forall i :: 0 <= i < chunks.Length ==> selected[i] == (i in SelectBatch(s, h, ids, index).0)
      {
        var found := FindProviderChunk(h, ids[index]);
        SelectNext(s, h, ids, index);
        if found.None? {
          SelectStops(s, h, ids, index + 1);
          return ENoEnt;
        }
        if selected[found.value] {
          SelectStops(s, h, ids, index + 1);
          return EInval;
        }
        selected[found.value] := true;
      }
      status := Ok;
    }

    method CloseBatch(selected: array<bool>, id: nat, transition: nat, ghost chosen: set<int>)
      requires selected.Length == chunks.Length && selected[..] == Selection(chunks.Length, chosen)
      modifies chunks
      ensures chunks[..] == Close(old(chunks[..]), chosen, id, transition)
    {
      ghost var cs := chunks[..];
      assert forall i :: 0 <= i < chunks.Length ==> (selected[..][i] <==> i in chosen);
      for index := 0 to chunks.Length
        invariant forall i :: 0 <= i < chunks.Length ==>
          chunks[i] == if i < index && i in chosen
                       then cs[i].(phase := Evicting, evictionClaim := id, transition := transition) else cs[i]
      {
        if selected[index] {
          chunks[index] := chunks[index].(phase := Evicting, evictionClaim := id, transition := transition);
        }
      }
    }

    // The checks that stand before an eviction begins, in order.
    method BeginStatus(h: Handle, ids: seq<nat>, prior: EvictionClaim, selected: array<bool>) returns (status: Status)
      requires Valid() && selected.Length == chunks.Length && forall i :: 0 <= i < chunks.Length ==> !selected[i]
      modifies selected
      ensures status == ChunkState.BeginEviction(Model(), h, ids, prior).1
      ensures status.Ok? ==> selected[..] == Selection(chunks.Length, SelectBatch(Model(), h, ids, |ids|).0)
    {
      hide Inv, Live, CheckEviction, SelectBatch, Close, Members, Digest;
      if ids == [] || |ids| > chunks.Length { return EInval; }
      if !mode.Backed? { return ENotSupported; }
      if quiescing { return EShutdown; }
      var live := IsLive(h);
      if !live { return EStale; }
      var prior' := EvictionStatus(prior);
      if prior'.Ok? { return EBusy; }
      status := SelectChunks(h, ids, selected);
      if status != Ok { return; }
      if lastEvictionClaim >= ID_MAX || lastTransition >= ID_MAX || usableCount < |ids| || evictionClaims >= U32_MAX {
        status := EOverflow;
      }
    }

    method TakeEvictionNumbers()
      modifies this
      ensures Model() == old(Model()).(lastEvictionClaim := old(lastEvictionClaim) + 1, lastTransition := old(lastTransition) + 1)
    {
      hide Members;
      lastEvictionClaim, lastTransition := lastEvictionClaim + 1, lastTransition + 1;
      assert chunks[..] == old(chunks[..]) && providers[..] == old(providers[..]) && words[..] == old(words[..]);
    }

    method OpenEviction(selected: array<bool>, count: nat, ghost chosen: set<int>)
      requires selected.Length == chunks.Length && selected[..] == Selection(chunks.Length, chosen) && count <= usableCount
      modifies this, chunks
      ensures Model() == EvictionOpened(old(Model()), count, chosen)
    {
      hide Members, Selection, Close;
      TakeEvictionNumbers();
      Supersede();
      CloseBatch(selected, lastEvictionClaim, lastTransition, chosen);
      usableCount, evictionClaims := usableCount - count, evictionClaims + 1;
    }

    method BeginEviction(h: Handle, ids: seq<nat>, prior: EvictionClaim) returns (status: Status, claim: EvictionClaim)
      requires Valid()
      modifies this, chunks
      ensures Valid() && (Model(), status, claim) == ChunkState.BeginEviction(old(Model()), h, ids, prior)
    {
      hide Inv, ChunkState.BeginEviction, Members, Selection, SelectBatch, Close, Digest;
      ghost var s := Model();
      BeginEvictionKeeps(s, h, ids, prior);
      BegunMeans(s, h, ids, prior);
      var selected := new bool[chunks.Length](_ => false);
      status := BeginStatus(h, ids, prior, selected);
      claim := prior;
      if status.Ok? {
        var digest := BatchDigest(selected);
        OpenEviction(selected, |ids|, SelectBatch(s, h, ids, |ids|).0);
        claim := EvictionClaim(true, epoch, h, lastEvictionClaim, lastTransition, digest, |ids|);
      }
    }

    method IsDrained(id: nat) returns (drained: bool)
      requires Valid()
      ensures drained == Drained(Model(), id)
    {
      hide Inv;
      for index := 0 to chunks.Length
        invariant forall i :: 0 <= i < index && chunks[i].evictionClaim == id ==> chunks[i].leases == 0
      {
        if chunks[index].evictionClaim == id && chunks[index].leases != 0 {
          assert index in EvictedBy(chunks[..], id);
          return false;
        }
      }
      return true;
    }

    method EnterWait(c: EvictionClaim, deadline: nat) returns (status: Status)
      requires Valid()
      modifies `waits
      ensures Valid() && (Model(), status) == ChunkState.EnterWait(old(Model()), c, deadline)
    {
      hide Inv, CheckEviction, Members;
      if deadline == 0 { return EInval; }
      status := EvictionStatus(c);
      if status != Ok { return; }
      if waits >= U32_MAX { return EOverflow; }
      QuietKeeps(Model(), Model().(waits := waits + 1));
      waits := waits + 1;
    }

    // One turn of the waiting loop; the thread sleeps and comes back when there is no status yet.
    method PollWait(c: EvictionClaim, now: Option<nat>, deadline: nat) returns (status: Option<Status>)
      requires Valid()
      modifies `waits
      ensures Valid() && (Model(), status) == ChunkState.PollWait(old(Model()), c, now, deadline)
    {
      hide Inv, CheckEviction, Drained, Members;
      var check := EvictionStatus(c);
      var drained := IsDrained(c.id);
      if check != Ok {
        status := Some(check);
      } else if drained {
        status := Some(Ok);
      } else if now.None? {
        status := Some(EIo);
      } else if now.value >= deadline {
        status := Some(ETimedOut);
      } else {
        return None;
      }
      if waits != 0 {
        QuietKeeps(Model(), Model().(waits := waits - 1));
        waits := waits - 1;
      }
    }

    method ResetMapping(i: nat, cool: bool)
      requires i < chunks.Length && WORD_BITS * words.Length == chunks.Length * SECTORS_PER_CHUNK
      modifies this`lastGeneration, chunks, words
      ensures Model() == ResetOne(old(Model()), i, cool)
    {
      hide Members, ChunkSectors;
      ghost var s := Model();
      ClearChunk(i);
      lastGeneration := lastGeneration + 1;
      chunks[i] := ResetChunk(chunks[i], lastGeneration, cool);
      assert chunks[..] == s.chunks[i := chunks[i]];
    }

    method ResetEvicted(id: nat)
      requires WORD_BITS * words.Length == chunks.Length * SECTORS_PER_CHUNK && id != 0
      modifies this`lastGeneration, chunks, words
      ensures Model() == ResetMembers(old(Model()), EvictedBy(old(chunks[..]), id), true)
    {
      hide Members, ResetMembers, ResetOne, EvictedBy, Below;
      ghost var s := Model();
      ghost var members := EvictedBy(s.chunks, id);
      EvictedIndex(s.chunks, id);
      ResetNone(s, members, true);
      for index := 0 to chunks.Length
        invariant Model() == ResetMembers(s, Below(members, index), true)
      {
        ResetNext(s, members, index, true);
        if chunks[index].evictionClaim == id {
          ResetMapping(index, true);
        }
      }
      ResetAll(s, members, true);
    }

    method FinishEviction(c: EvictionClaim) returns (status: Status)
      requires Valid()
      modifies this, chunks, words
      ensures Valid() && (Model(), status) == ChunkState.FinishEviction(old(Model()), c)
    {
      hide Inv, CheckEviction, Drained, ResetMembers, Members, EvictedBy;
      FinishEvictionKeeps(Model(), c);
      status := EvictionStatus(c);
      if status != Ok { return; }
      EvictionTagged(Model(), c);
      var drained := IsDrained(c.id);
      if !drained {
        NoteInvariant(FinishActiveLeases);
        status := EBusy;
        return;
      }
      if lastGeneration > ID_MAX - c.count || assignedCount < c.count || evictionClaims == 0 {
        status := EOverflow;
        return;
      }
      ResetEvicted(c.id);
      assignedCount, evictionClaims := assignedCount - c.count, evictionClaims - 1;
      status := Ok;
    }

    method NoteInvariant(event: InvariantEvent)
      modifies this
      ensures Model() == Note(old(Model()), event)
    {
      hide Members;
      if invariants < ID_MAX { invariants := invariants + 1; }
      latestInvariant := event;
      assert chunks[..] == old(chunks[..]) && providers[..] == old(providers[..]) && words[..] == old(words[..]);
    }

    // -------------------------------------------------------- Provider failure

    method IsHead(index: nat, evicting: bool) returns (head: bool)
      requires index < chunks.Length
      ensures head == if evicting then HeadsEviction(chunks[..], index) else HeadsMapping(chunks[..], index)
    {
      for previous := 0 to index
        invariant forall j :: 0 <= j < previous ==>
          if evicting then chunks[j].evictionClaim != chunks[index].evictionClaim
          else chunks[j].mappingClaim != chunks[index].mappingClaim
      {
        if evicting && chunks[previous].evictionClaim == chunks[index].evictionClaim { return false; }
        if !evicting && chunks[previous].mappingClaim == chunks[index].mappingClaim { return false; }
      }
      return true;
    }

    // What a failing Provider takes with it, counted in one pass over the chunks.
    method CountLosses(h: Handle) returns (losses: Losses)
      requires Valid()
      ensures losses == LossesOver(chunks[..], h)
    {
      hide Inv, LossesOver, HeadsEviction, HeadsMapping;
      losses := NO_LOSSES;
      NoLosses(chunks[..], h);
      for index := 0 to chunks.Length
        invariant losses == LossesOver(chunks[..][..index], h)
      {
        LossesNext(chunks[..], index, h);
        var chunk := chunks[index];
        if !chunk.phase.Unmapped? && chunk.provider == h {
          var facts := losses.facts.(affected := losses.facts.affected + 1, leases := losses.facts.leases + chunk.leases);
          if chunk.phase.Mapping? {
            var head := IsHead(index, false);
            losses := Losses(facts.(mapping := facts.mapping + 1), losses.mappings + (if head then 1 else 0), losses.evictions);
          } else if chunk.phase.Mapped? {
            losses := losses.(facts := facts.(assignedCount := facts.assignedCount + 1, usableCount := facts.usableCount + 1));
          } else {
            var head := IsHead(index, true);
            losses := Losses(facts.(assignedCount := facts.assignedCount + 1, evicting := facts.evicting + 1),
                             losses.mappings, losses.evictions + (if head then 1 else 0));
          }
        }
      }
      WholePrefix(chunks[..]);
    }

    method ResetOwned(h: Handle)
      requires WORD_BITS * words.Length == chunks.Length * SECTORS_PER_CHUNK
      modifies this`lastGeneration, chunks, words
      ensures Model() == ResetMembers(old(Model()), OwnedBy(old(chunks[..]), h), false)
    {
      hide Members, ResetMembers, ResetOne, OwnedBy, Below;
      ghost var s := Model();
      ghost var members := OwnedBy(s.chunks, h);
      OwnedIndex(s.chunks, h);
      ResetNone(s, members, false);
      for index := 0 to chunks.Length
        invariant Model() == ResetMembers(s, Below(members, index), false)
      {
        ResetNext(s, members, index, false);
        if !chunks[index].phase.Unmapped? && chunks[index].provider == h {
          ResetMapping(index, false);
        }
      }
      ResetAll(s, members, false);
    }

    method SubtractLosses(l: Losses)
      requires l.facts.assignedCount <= assignedCount && l.facts.usableCount <= usableCount
      requires l.mappings <= mappingClaims && l.evictions <= evictionClaims
      modifies this
      ensures Model() == Subtracted(old(Model()), l)
    {
      hide Members;
      assignedCount, usableCount := assignedCount - l.facts.assignedCount, usableCount - l.facts.usableCount;
      mappingClaims, evictionClaims := mappingClaims - l.mappings, evictionClaims - l.evictions;
      assert chunks[..] == old(chunks[..]) && providers[..] == old(providers[..]) && words[..] == old(words[..]);
    }

    method LoseProvider(p: nat, h: Handle, l: Losses)
      requires WORD_BITS * words.Length == chunks.Length * SECTORS_PER_CHUNK && p < providers.Length
      requires l.facts.assignedCount <= assignedCount && l.facts.usableCount <= usableCount
      requires l.mappings <= mappingClaims && l.evictions <= evictionClaims
      modifies this, chunks, words, providers
      ensures Model() == Lost(old(Model()), p, h, l)
    {
      hide Members, ResetMembers, OwnedBy;
      if l.mappings != 0 { EndClaim(activeClaim, FailureTerminal); }
      ghost var s := Model();
      lastTransition := lastTransition + 1;
      assert Model() == s.(lastTransition := s.lastTransition + 1);
      ResetOwned(h);
      SubtractLosses(l);
      ghost var t := Model();
      providers[p] := providers[p].(failed := true, eligible := false, exclusion := Unhealthy, facts := l.facts);
      assert providers[..] == t.providers[p := providers[p]];
      ResetKeepsRest(s, OwnedBy(s.chunks, h));
    }

    method FailProvider(h: Handle) returns (r: FailureResult, facts: FailureFacts)
      requires Valid()
      modifies this, chunks, words, providers
      ensures Valid() && (Model(), r, facts) == ChunkState.FailProvider(old(Model()), h)
    {
      hide Inv, ChunkState.FailProvider, Members, Lost, LossesOver;
      ghost var s := Model();
      FailProviderKeeps(s, h);
      FailureMeans(s, h);
      facts := NO_FACTS;
      if !HandleWellFormed(h) { return FailureInvalid, facts; }
      var found := RosterFind(h);
      if found.None? { return FailureStaleEpoch, facts; }
      var p := found.value;
      if providers[p].failed { return FailureDuplicate, providers[p].facts; }
      var l := CountLosses(h);
      if lastGeneration > ID_MAX - l.facts.affected || assignedCount < l.facts.assignedCount
         || usableCount < l.facts.usableCount || mappingClaims < l.mappings || evictionClaims < l.evictions
         || lastTransition >= ID_MAX
         || (l.mappings != 0 && (!ClaimWellFormed(activeClaim) || activeClaim.provider != h)) {
        return FailureExhausted, facts;
      }
      LoseProvider(p, h, l);
      return FailureApplied, l.facts;
    }

    // -------------------------------------------------------------- I/O leases

    method GrantLease(home: nat, r: Request, i: nat) returns (lease: Lease)
      requires RangeAdmitted(Model(), r) && i == (r.sector / SECTORS_PER_CHUNK) % U32_SIZE < chunks.Length
      requires WORD_BITS * words.Length == chunks.Length * SECTORS_PER_CHUNK
      modifies this, chunks, words
      ensures Model() == LeaseGranted(old(Model()), i, r)
      ensures lease ==
        Lease(home, epoch, old(lastLease) + 1, old(chunks[i]).generation, r.sector, r.bytes / SECTOR_BYTES, i, r.direction, false, false)
    {
      hide Members, Range;
      ghost var s := Model();
      var count := r.bytes / SECTOR_BYTES;
      lastLease := lastLease + 1;
      lease := Lease(home, epoch, lastLease, chunks[i].generation, r.sector, count, i, r.direction, false, false);
      if r.direction.Write? {
        AdmittedInWords(s, r, words.Length);
        var done := Apply(words, r.sector, count, Clear);
      }
      chunks[i] := chunks[i].(leases := chunks[i].leases + 1);
      leases := leases + 1;
      assert chunks[..] == s.chunks[i := chunks[i]];
    }

    // The checks that stand before a lease is granted, in order.
    method AcquireStatus(home: nat, storage: Lease, r: Request) returns (status: Status)
      requires Valid()
      modifies words
      ensures words[..] == old(words[..]) && status == ChunkState.AcquireLease(Model(), home, storage, r).2
    {
      hide Inv, Members, Range, RangeFits;
      if r.bytes == 0 || r.bytes % SECTOR_BYTES != 0 { return EInval; }
      if !RangeFits(chunks.Length, r) { return ERange; }
      if quiescing { return EShutdown; }
      if storage.Foreign? || (storage.Lease? && storage.home != home) { return EInval; }
      if storage.Lease? { return if storage.released then EAlready else EBusy; }
      var i := (r.sector / SECTORS_PER_CHUNK) % U32_SIZE;
      AdmittedInWords(Model(), r, words.Length);
      if !chunks[i].phase.Mapped? { return ENxio; }
      if r.direction.Read? {
        var written := Apply(words, r.sector, r.bytes / SECTOR_BYTES, Test);
        if !written { return ENoData; }
      }
      return if lastLease >= ID_MAX || leases >= U32_MAX || chunks[i].leases >= U32_MAX then EOverflow else Ok;
    }

    method AcquireLease(home: nat, storage: Lease, r: Request) returns (lease: Lease, status: Status, transport: Transport)
      requires Valid()
      modifies this, chunks, words
      ensures Valid() && (Model(), lease, status, transport) == ChunkState.AcquireLease(old(Model()), home, storage, r)
    {
      hide Inv, Members, Range, RangeFits, LeaseGranted, ChunkState.AcquireLease;
      ghost var s := Model();
      AcquireKeeps(s, home, storage, r);
      AcquiredMeans(s, home, storage, r);
      lease, transport := storage, NoTransport;
      status := AcquireStatus(home, storage, r);
      if status.Ok? {
        var i := (r.sector / SECTORS_PER_CHUNK) % U32_SIZE;
        var chunk := chunks[i];
        transport := Transport(chunk.provider, chunk.address + r.sector % SECTORS_PER_CHUNK * SECTOR_BYTES, chunk.key,
                               chunk.providerChunk, i);
        lease := GrantLease(home, r, i);
      }
    }

    method LeaseStatus(home: nat, l: Lease) returns (status: Status)
      requires Valid()
      ensures status == CheckLease(Model(), home, l)
    {
      hide Inv;
      if !l.Lease? || l.id == 0 || l.generation == 0 || l.count == 0 || l.home != home { return EInval; }
      if l.epoch != epoch { return EStale; }
      if l.id > lastLease || l.generation > lastGeneration || l.chunk >= chunks.Length
         || l.sector / SECTORS_PER_CHUNK != l.chunk
         || l.count > SECTORS_PER_CHUNK - l.sector % SECTORS_PER_CHUNK || (l.released && !l.resolved) {
        return EInval;
      }
      return Ok;
    }

    method ResolveLease(home: nat, l: Lease, outcome: Outcome) returns (lease: Lease, status: Status, resolution: Resolution)
      requires Valid()
      modifies this, words
      ensures (Model(), lease, status, resolution) == ChunkState.ResolveLease(old(Model()), home, l, outcome)
      ensures Genuine(old(Model()), home, l) ==> Valid()
    {
      hide Inv, Members, Range;
      if Genuine(Model(), home, l) { ResolveKeeps(Model(), home, l, outcome); }
      lease, resolution := l, Unresolved;
      status := LeaseStatus(home, l);
      if status != Ok { return; }
      if l.resolved {
        NoteInvariant(DuplicateResolve);
        status := EAlready;
        return;
      }
      lease := l.(resolved := true);
      if chunks[l.chunk].generation != l.generation {
        resolution := Outdated;
        return;
      }
      resolution := Current;
      if l.direction.Write? {
        LeaseInWords(Model(), home, l, words.Length);
        var done := Apply(words, l.sector, l.count, if outcome.Success? then Set else Clear);
      }
    }

    method ReleaseLease(home: nat, l: Lease) returns (lease: Lease, status: Status)
      requires Valid()
      modifies this, chunks
      ensures Valid() && (Model(), lease, status) == ChunkState.ReleaseLease(old(Model()), home, l)
    {
      hide Inv, Members;
      ghost var s := Model();
      ReleaseKeeps(s, home, l);
      lease := l;
      status := LeaseStatus(home, l);
      if status != Ok { return; }
      if l.released {
        NoteInvariant(DuplicateRelease);
        status := EAlready;
        return;
      }
      if !l.resolved {
        NoteInvariant(ReleaseBeforeResolve);
        status := EPerm;
        return;
      }
      if chunks[l.chunk].leases == 0 || leases == 0 {
        status := EInval;
        return;
      }
      chunks[l.chunk] := chunks[l.chunk].(leases := chunks[l.chunk].leases - 1);
      leases := leases - 1;
      lease := l.(released := true);
      assert chunks[..] == s.chunks[l.chunk := chunks[l.chunk]];
    }

    // ------------------------------------------------------------ lifetime

    constructor (c: Config, epoch: nat)
      requires ConfigAccepted(c) && 0 < epoch < ID_MAX
      ensures Valid() && Model() == Create(c, epoch)
      ensures fresh(chunks) && fresh(providers) && fresh(words) && fresh(candidates) && fresh(samples)
    {
      mode, sampleSize, hot, this.epoch := c.mode, c.sampleSize, c.hot, epoch;
      chunks := new Chunk[c.chunks](_ => FRESH_CHUNK);
      providers := new Provider[|c.weights|](i requires 0 <= i < |c.weights| => FreshProvider(epoch, i, c.weights[i]));
      words := new Word[c.chunks * (SECTORS_PER_CHUNK / WORD_BITS)](_ => WordOf(0));
      candidates := new int[|c.weights|];
      samples := new int[|c.weights|];
      lastMappingClaim, lastEvictionClaim, lastTransition, lastGeneration, lastLease := 0, 0, 0, 0, 0;
      invariants, latestInvariant := 0, NoInvariant;
      activeClaim, endedClaim, endedAction := NO_CLAIM, NO_CLAIM, NoTerminal;
      mappingClaims, evictionClaims, leases, assignedCount, usableCount := 0, 0, 0, 0, 0;
      quiescing, waits := false, 0;
      new;
      hide Inv;
      EmptyWords(words[..]);
      CreateInv(c, epoch);
      assert chunks[..] == Create(c, epoch).chunks;
      assert providers[..] == Create(c, epoch).providers;
    }

    method Quiesce()
      requires Valid()
      modifies this
      ensures Valid() && Model() == ChunkState.Quiesce(old(Model()))
    {
      hide Inv, Members;
      QuiesceKeeps(Model());
      if quiescing { NoteInvariant(DuplicateQuiesce); } else { quiescing := true; }
    }

    method Destroy() returns (destroyed: bool)
      requires Valid()
      modifies this
      ensures Valid() && (Model(), destroyed) == ChunkState.Destroy(old(Model()))
    {
      hide Inv, Members;
      QuiesceKeeps(Model());
      quiescing := true;
      if mappingClaims != 0 || evictionClaims != 0 || waits != 0 || leases != 0 {
        NoteInvariant(DestroyActive);
        return false;
      }
      return true;
    }

    method ReportProviders() returns (reports: seq<ProviderReport>)
      requires Valid()
      ensures |reports| == providers.Length
      ensures forall i :: 0 <= i < |reports| ==> ReportsProvider(Model(), chunks[..0], i, reports[i])
    {
      hide Inv, AssignedTo, UsableOn, Members;
      NothingTallied(chunks[..], 0);
      assert chunks[..][..0] == chunks[..0];
      reports := [];
      for index := 0 to providers.Length
        invariant |reports| == index
        invariant forall i :: 0 <= i < index ==> ReportsProvider(Model(), chunks[..0], i, reports[i])
      {
        var p, diagnostic := providers[index], 0;
        if !p.failed && p.observed && p.eligible {
          var assignedChunks, ignored := CountDebits(p.handle);
          diagnostic := Reconcile(p.reported, p.observedAssigned, assignedChunks);
        }
        reports := reports + [ProviderReport(p, diagnostic, 0, 0)];
      }
    }

    // Counts a chunk for the Provider it is placed on.
    method ReportChunk(index: nat, before: seq<ProviderReport>) returns (ok: bool, reports: seq<ProviderReport>)
      requires Valid() && index < chunks.Length && |before| == providers.Length
      requires forall i :: 0 <= i < |before| ==> ReportsProvider(Model(), chunks[..][..index], i, before[i])
      ensures ok && |reports| == providers.Length
      ensures forall i :: 0 <= i < |reports| ==> ReportsProvider(Model(), chunks[..][..index + 1], i, reports[i])
    {
      hide Inv, ReportsProvider, Members;
      ghost var s := Model();
      reports := before;
      if IsAssigned(chunks[index]) {
        ChunkIsPlaced(s, index);
        var found := RosterFind(chunks[index].provider);
        if found.None? { return false, reports; }
        var k := found.value;
        forall i | 0 <= i < |before| ensures ReportsProvider(s, s.chunks[..index + 1], i,
          before[i].(assignedCount := if i == k then before[i].assignedCount + 1 else before[i].assignedCount,
                     usableCount := if i == k && s.chunks[index].phase.Mapped? then before[i].usableCount + 1
                                    else before[i].usableCount))
        {
          ReportNext(s, index, i, k, before[i]);
        }
        var usable := if chunks[index].phase.Mapped? then before[k].usableCount + 1 else before[k].usableCount;
        reports := before[k := before[k].(assignedCount := before[k].assignedCount + 1, usableCount := usable)];
      } else {
        forall i | 0 <= i < |before| ensures ReportsProvider(s, s.chunks[..index + 1], i, before[i]) {
          ReportNext(s, index, i, 0, before[i]);
        }
      }
      ok := true;
    }

    // A snapshot is always taken, its consistency checks never fail, and it shows the module as it is.
    method TakeSnapshot() returns (r: Option<Snapshot>)
      requires Valid()
      ensures r.Some? && Depicts(Model(), r.value)
    {
      hide Inv, ReportsProvider, Tallies, Placements, Members;
      ghost var s := Model();
      var reports := ReportProviders();
      var tally, placements: seq<Placement> := NO_TALLY, [];
      NothingTallied(chunks[..], hot.threshold);
      assert chunks[..][..0] == chunks[..0];
      for index := 0 to chunks.Length
        invariant |reports| == providers.Length && placements == Placements(s.chunks[..index])
        invariant Tallies(s.chunks[..index], hot.threshold, tally)
        invariant forall i :: 0 <= i < |reports| ==> ReportsProvider(s, s.chunks[..index], i, reports[i])
      {
        var ok;
        ok, reports := ReportChunk(index, reports);
        if !ok { return None; }
        TallyNext(s.chunks, index, hot.threshold, tally);
        PlacementNext(s.chunks, index);
        tally := Counted(tally, chunks[index], hot.threshold);
        if IsAssigned(chunks[index]) {
          placements := placements + [Placement(chunks[index].provider, index, chunks[index].phase.Mapped?)];
        }
      }
      WholePrefix(s.chunks);
      TallyAgrees(s, tally);
      if tally.assignedCount != assignedCount || tally.usableCount != usableCount || tally.leases != leases { return None; }
      return Some(Snapshot(mode, chunks.Length, tally, mappingClaims, evictionClaims, invariants, latestInvariant, quiescing,
                           hot, sampleSize, reports, placements));
    }
  }
}
