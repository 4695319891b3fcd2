/**
 What every entry of the Remote Chunk module keeps.
 */
module ChunkInvariant {
  import opened Options
  import opened SectorBitmap
  import opened ChunkState

  // ------------------------------------------------------------ the invariant

  ghost predicate Shape(s: State) {
    && 0 < |s.chunks| <= MAX_CHUNKS && |s.providers| <= MAX_PROVIDERS && s.epoch > 0 && s.sampleSize > 0
    && (forall i :: 0 <= i < |s.providers| ==> s.providers[i].handle == Handle(s.epoch, i + 1))
    && s.lastMappingClaim <= ID_MAX && s.lastEvictionClaim <= ID_MAX && s.lastTransition <= ID_MAX
    && s.lastGeneration <= ID_MAX && s.lastLease <= ID_MAX && s.leases <= U32_MAX
  }

  // A handle of this epoch whose Provider has not failed.
  ghost predicate LiveSlot(s: State, h: Handle) {
    h.epoch == s.epoch && 1 <= h.slot <= |s.providers| && !s.providers[h.slot - 1].failed
  }

  ghost predicate Placed(s: State, c: Chunk) {
    && LiveSlot(s, c.provider) && c.mappingClaim == 0 && c.generation > 0
    && 0 < c.address <= ID_MAX - (CHUNK_BYTES - 1)
  }

  ghost predicate ChunkOk(s: State, i: int)
    requires 0 <= i < |s.chunks|
  {
    var c := s.chunks[i];
    && c.generation <= s.lastGeneration
    && match c.phase
       case Unmapped => c.provider == NO_PROVIDER && c.mappingClaim == 0 && c.evictionClaim == 0 && c.transition == 0
       case Mapping =>
         && LiveSlot(s, c.provider) && c.evictionClaim == 0
         && s.activeClaim == MappingClaim(true, s.epoch, c.provider, c.mappingClaim, c.transition,
                                          Digest(Selection(|s.chunks|, {i})), 1, 1)
         && 0 < c.mappingClaim == s.lastMappingClaim && 0 < c.transition <= s.lastTransition
       case Mapped => Placed(s, c) && c.evictionClaim == 0 && c.transition == 0
       case Evicting =>
         Placed(s, c) && 0 < c.evictionClaim <= s.lastEvictionClaim && 0 < c.transition <= s.lastTransition
  }

  ghost predicate ChunksOk(s: State) {
    forall i :: 0 <= i < |s.chunks| ==> ChunkOk(s, i)
  }

  // At most one mapping claim is open, and a finished one is remembered only while none is.
  ghost predicate ClaimsOk(s: State) {
    && (forall i, j :: 0 <= i < j < |s.chunks| ==> !s.chunks[i].phase.Mapping? || !s.chunks[j].phase.Mapping?)
    && s.mappingClaims == |MappingSet(s.chunks)|
    && (MappingSet(s.chunks) == {} ==> s.activeClaim == NO_CLAIM)
    && (s.endedClaim != NO_CLAIM ==>
          && MappingSet(s.chunks) == {} && ClaimWellFormed(s.endedClaim) && s.endedClaim.epoch == s.epoch
          && s.endedClaim.count == 1 && s.endedClaim.id <= s.lastMappingClaim)
  }

  ghost predicate CountersOk(s: State) {
    && s.assignedCount == |AssignedSet(s.chunks)|
    && s.usableCount == |MappedSet(s.chunks)|
    && s.evictionClaims == |EvictionHeads(s.chunks)|
    && s.leases == LeaseSum(s.chunks)
  }

  // An eviction batch belongs to one Provider and one transition.
  ghost predicate BatchesOk(s: State) {
    forall i, j ::
      (0 <= i < |s.chunks| && 0 <= j < |s.chunks| && s.chunks[i].phase.Evicting? && s.chunks[j].phase.Evicting?
       && s.chunks[i].evictionClaim == s.chunks[j].evictionClaim) ==>
        s.chunks[i].provider == s.chunks[j].provider && s.chunks[i].transition == s.chunks[j].transition
  }

  // No Provider chunk backs two logical chunks.
  ghost predicate GrantsUnique(s: State) {
    forall i, j ::
      (0 <= i < j < |s.chunks| && IsAssigned(s.chunks[i]) && IsAssigned(s.chunks[j])
       && s.chunks[i].provider == s.chunks[j].provider) ==> s.chunks[i].providerChunk != s.chunks[j].providerChunk
  }

  ghost predicate ValidityOk(s: State) {
    forall x :: x in s.valid ==> 0 <= ChunkOf(x) < |s.chunks| && IsAssigned(s.chunks[ChunkOf(x)])
  }

  // A Provider is never asked for more than it reported on top of what it already held.
  ghost predicate DebitOk(s: State, i: int)
    requires 0 <= i < |s.providers|
  {
    var p := s.providers[i];
    && p.observedDebits <= |s.chunks|
    && if p.observed then !p.failed ==> Debits(s.chunks, p.handle) <= p.observedDebits + p.reported
       else Debits(s.chunks, p.handle) == 0
  }

  ghost predicate DebitsOk(s: State) {
    forall i :: 0 <= i < |s.providers| ==> DebitOk(s, i)
  }

  ghost predicate ModeOk(s: State) {
    s.mode.RemoteOnly? ==> forall i :: 0 <= i < |s.chunks| ==> !s.chunks[i].phase.Evicting?
  }

  ghost predicate Inv(s: State) {
    && Shape(s) && ChunksOk(s) && ClaimsOk(s) && CountersOk(s) && BatchesOk(s) && GrantsUnique(s)
    && ValidityOk(s) && DebitsOk(s) && ModeOk(s)
  }

  // How a call may change a chunk under the leases held on it.
  ghost predicate Kept(c: Chunk, d: Chunk) {
    && d.generation == c.generation && d.leases == c.leases
    && (IsAssigned(c) ==> IsAssigned(d) && SamePlacement(c, d))
  }

  predicate SamePlacement(c: Chunk, d: Chunk) {
    d.provider == c.provider && d.providerChunk == c.providerChunk && d.address == c.address && d.key == c.key
  }

  ghost predicate Retired(s: State, t: State, i: int)
    requires |s.chunks| == |t.chunks| && 0 <= i < |s.chunks|
  {
    var c := s.chunks[i];
    && t.chunks[i].generation > c.generation && t.chunks[i].leases == c.leases
    && (c.leases == 0 || !IsAssigned(c) || (LiveSlot(s, c.provider) && !LiveSlot(t, c.provider)))
  }

  ghost predicate Evolves(s: State, t: State) {
    && |s.chunks| == |t.chunks| && |s.providers| == |t.providers| && s.epoch == t.epoch && s.mode == t.mode
    && s.lastGeneration <= t.lastGeneration && s.lastLease == t.lastLease && s.leases == t.leases
    && (forall i :: 0 <= i < |s.providers| && s.providers[i].failed ==> t.providers[i].failed)
    && (forall i :: 0 <= i < |s.chunks| ==> Kept(s.chunks[i], t.chunks[i]) || Retired(s, t, i))
  }

  // ------------------------------------------------------------ small facts

  lemma LiveIffSlot(s: State, h: Handle)
    requires Shape(s)
    ensures Live(s, h) <==> LiveSlot(s, h)
    ensures LiveSlot(s, h) ==> RosterIndex(s, h) == Some(h.slot - 1) && HandleWellFormed(h)
  {
    if LiveSlot(s, h) {
      assert s.providers[h.slot - 1].handle == h;
    }
  }

  lemma {:induction false} LeaseSumUpdate(cs: seq<Chunk>, i: int, c: Chunk)
    requires 0 <= i < |cs|
    ensures LeaseSum(cs[i := c]) == LeaseSum(cs) - cs[i].leases + c.leases
  {
    var n := |cs| - 1;
    if i == n {
      assert cs[i := c][..n] == cs[..n];
    } else {
      assert cs[i := c][..n] == cs[..n][i := c];
      LeaseSumUpdate(cs[..n], i, c);
    }
  }

  lemma {:induction false} LeaseSumSame(cs: seq<Chunk>, ds: seq<Chunk>)
    requires |cs| == |ds| && forall i :: 0 <= i < |cs| ==> cs[i].leases == ds[i].leases
    ensures LeaseSum(cs) == LeaseSum(ds)
  {
    if cs != [] { LeaseSumSame(cs[..|cs| - 1], ds[..|ds| - 1]); }
  }

  lemma SubsetSize(a: set<int>, b: set<int>)
    requires a <= b
    ensures |a| <= |b|
  {
    assert b == a + (b - a);
  }

  lemma {:induction false} RangeSize(n: nat)
    ensures |Range(0, n)| == n
  {
    if n > 0 {
      RangeSize(n - 1);
      assert Range(0, n) == Range(0, n - 1) + {n - 1};
    }
  }

  lemma BoundedSize(a: set<int>, n: nat)
    requires a <= Range(0, n)
    ensures |a| <= n
  {
    RangeSize(n);
    SubsetSize(a, Range(0, n));
  }

  lemma RankBounds(members: set<int>, i: int)
    requires i in members
    ensures 1 <= Rank(members, i) <= |members|
  {
    var below := set j | j in members && j <= i;
    SubsetSize(below, members);
    SubsetSize({i}, below);
  }

  // Providers without the changed chunks keep their debits.
  lemma DebitsShrink(cs: seq<Chunk>, ds: seq<Chunk>, h: Handle)
    requires OwnedBy(ds, h) <= OwnedBy(cs, h)
    ensures Debits(ds, h) <= Debits(cs, h)
  {
    SubsetSize(OwnedBy(ds, h), OwnedBy(cs, h));
  }

  // ------------------------------------------------- creation and observation

  lemma CreateInv(c: Config, epoch: nat)
    requires ConfigAccepted(c) && 0 < epoch < ID_MAX
    ensures Inv(Create(c, epoch))
  {
    var s := Create(c, epoch);
    assert MappingSet(s.chunks) == {} && AssignedSet(s.chunks) == {} && MappedSet(s.chunks) == {};
    assert EvictionHeads(s.chunks) == {} && EvictingSet(s.chunks) == {};
    FreshLeases(c.chunks);
    forall i | 0 <= i < |s.providers| ensures DebitOk(s, i) {
      assert OwnedBy(s.chunks, s.providers[i].handle) == {};
    }
  }

  lemma {:induction false} FreshLeases(n: nat)
    ensures LeaseSum(seq(n, _ => FRESH_CHUNK)) == 0
  {
    if n > 0 {
      FreshLeases(n - 1);
      assert seq(n, _ => FRESH_CHUNK)[..n - 1] == seq(n - 1, _ => FRESH_CHUNK);
    }
  }

  // Two states that agree on chunks, claims and counters, up to the Provider table.
  ghost predicate SameCore(s: State, t: State) {
    t == s.(providers := t.providers, hot := t.hot, invariants := t.invariants,
            latestInvariant := t.latestInvariant, quiescing := t.quiescing, waits := t.waits)
  }

  ghost predicate SameLiveness(s: State, t: State) {
    && |t.providers| == |s.providers|
    && forall i :: 0 <= i < |s.providers| ==>
         t.providers[i].handle == s.providers[i].handle && t.providers[i].failed == s.providers[i].failed
  }

  lemma SameCoreKeeps(s: State, t: State)
    requires Inv(s) && SameCore(s, t) && SameLiveness(s, t) && DebitsOk(t)
    ensures Inv(t) && Evolves(s, t)
  {
    forall i | 0 <= i < |t.chunks| ensures ChunkOk(t, i) { assert ChunkOk(s, i); }
  }

  lemma ObserveKeeps(s: State, h: Handle, o: Observation)
    requires Inv(s)
    ensures var t := Observe(s, h, o).0; Inv(t) && Evolves(s, t)
  {
    hide ChunksOk, ClaimsOk, CountersOk, BatchesOk, GrantsUnique, ValidityOk, ModeOk, Evolves, OwnedBy;
    var t := Observe(s, h, o).0;
    OwnedBounded(s.chunks, h);
    forall i | 0 <= i < |t.providers| ensures DebitOk(t, i) { assert DebitOk(s, i); }
    SameCoreKeeps(s, t);
  }

  lemma QuietKeeps(s: State, t: State)
    requires Inv(s) && SameCore(s, t) && t.providers == s.providers
    ensures Inv(t) && Evolves(s, t)
  {
    forall i | 0 <= i < |t.providers| ensures DebitOk(t, i) { assert DebitOk(s, i); }
    SameCoreKeeps(s, t);
  }

  // Chunk tables that differ only in activity and lease counts.
  ghost predicate Alike(cs: seq<Chunk>, ds: seq<Chunk>) {
    && |cs| == |ds|
    && forall i :: 0 <= i < |cs| ==> ds[i] == cs[i].(activity := ds[i].activity, leases := ds[i].leases)
  }

  lemma AlikeSets(cs: seq<Chunk>, ds: seq<Chunk>)
    requires Alike(cs, ds)
    ensures MappingSet(ds) == MappingSet(cs) && AssignedSet(ds) == AssignedSet(cs) && MappedSet(ds) == MappedSet(cs)
    ensures EvictingSet(ds) == EvictingSet(cs)
    ensures EvictionHeads(ds) == EvictionHeads(cs)
  {}

  lemma AlikeOwned(cs: seq<Chunk>, ds: seq<Chunk>, h: Handle)
    requires Alike(cs, ds)
    ensures OwnedBy(ds, h) == OwnedBy(cs, h)
  {}

  lemma AlikeKeeps(s: State, t: State)
    requires Inv(s) && Alike(s.chunks, t.chunks)
    requires t == s.(chunks := t.chunks, leases := t.leases, lastLease := t.lastLease, valid := t.valid)
    requires t.leases == LeaseSum(t.chunks) <= U32_MAX && t.lastLease <= ID_MAX
    requires forall x :: x in t.valid ==> 0 <= ChunkOf(x) < |s.chunks| && IsAssigned(s.chunks[ChunkOf(x)])
    ensures Inv(t)
  {
    hide MappingSet, AssignedSet, MappedSet, EvictingSet, EvictionHeads, OwnedBy, LeaseSum, Digest;
    AlikeSets(s.chunks, t.chunks);
    forall i | 0 <= i < |t.chunks| ensures ChunkOk(t, i) { assert ChunkOk(s, i); }
    forall i | 0 <= i < |t.providers| ensures DebitOk(t, i) {
      assert DebitOk(s, i);
      AlikeOwned(s.chunks, t.chunks, t.providers[i].handle);
    }
    assert ClaimsOk(t);
    assert BatchesOk(t) && GrantsUnique(t) by { SetsIndex(s.chunks); }
  }

  // Members of the phase sets are chunk indices.
  lemma SetsIndex(cs: seq<Chunk>)
    ensures forall i :: i in EvictingSet(cs) ==> 0 <= i < |cs|
    ensures forall i :: i in AssignedSet(cs) ==> 0 <= i < |cs|
    ensures forall i :: i in MappingSet(cs) ==> 0 <= i < |cs|
  {}

  lemma NoteActivityKeeps(s: State, start: nat, count: nat, write: bool)
    requires Inv(s)
    ensures var t := NoteActivity(s, start, count, write); Inv(t) && Evolves(s, t)
  {
    hide ChunksOk, ClaimsOk, BatchesOk, GrantsUnique, DebitsOk, ModeOk;
    var t := NoteActivity(s, start, count, write);
    LeaseSumSame(s.chunks, t.chunks);
    AlikeKeeps(s, t);
  }

  // --------------------------------------------------------------- placement

  // The 32-bit formula is the exact difference, cut off at zero and at the largest 32-bit value.
  lemma ReconcileExact(reported: nat, observed: nat, current: nat)
    requires reported <= U32_MAX && observed <= U32_MAX && current <= U32_MAX
    ensures var exact := reported + observed - current;
      Reconcile(reported, observed, current) == if exact <= 0 then 0 else if exact >= U32_MAX then U32_MAX else exact
  {
    if current < observed && reported <= U32_MAX - (observed - current) {
      var exact := reported + observed - current;
      var wrapped := (reported + observed) % U32_SIZE;
      if reported + observed >= U32_SIZE {
        assert wrapped == reported + observed - U32_SIZE;
        assert (wrapped - current + U32_SIZE) % U32_SIZE == exact;
      }
    }
  }

  lemma {:induction false} EligibleMembers(s: State, n: nat)
    requires n <= |s.providers|
    ensures forall k :: 0 <= k < |Eligible(s, n)| ==> Eligible(s, n)[k] < n && Available(s, Eligible(s, n)[k]) > 0
    ensures forall i :: 0 <= i < n && Available(s, i) > 0 ==> i in Eligible(s, n)
    ensures forall j, k :: 0 <= j < k < |Eligible(s, n)| ==> Eligible(s, n)[j] < Eligible(s, n)[k]
  {
    hide Available;
    if n > 0 {
      EligibleMembers(s, n - 1);
      Extended(s, Eligible(s, n - 1), n - 1);
    }
  }

  // Putting a larger eligible Provider behind eligible ones keeps the list complete and increasing.
  lemma Extended(s: State, e: seq<int>, n: nat)
    requires n < |s.providers| && Indices(s, e)
    requires forall k :: 0 <= k < |e| ==> e[k] < n && Available(s, e[k]) > 0
    requires forall i :: 0 <= i < n && Available(s, i) > 0 ==> i in e
    requires forall j, k :: 0 <= j < k < |e| ==> e[j] < e[k]
    ensures var r := e + if Available(s, n) > 0 then [n] else [];
      && Indices(s, r) && (forall k :: 0 <= k < |r| ==> r[k] < n + 1 && Available(s, r[k]) > 0)
      && (forall i :: 0 <= i < n + 1 && Available(s, i) > 0 ==> i in r)
      && forall j, k :: 0 <= j < k < |r| ==> r[j] < r[k]
  {
    hide Available;
    if Available(s, n) > 0 {
      var r := e + [n];
      assert r[|e|] == n && forall k :: 0 <= k < |e| ==> r[k] == e[k];
    } else {
      assert e + [] == e;
    }
  }

  lemma {:induction false} TotalWeightGrows(s: State, candidates: seq<int>, k: nat)
    requires Indices(s, candidates) && k <= |candidates|
    ensures TotalWeight(s, candidates[..k]) <= TotalWeight(s, candidates)
    decreases |candidates| - k
  {
    if k == |candidates| {
      assert candidates[..k] == candidates;
    } else {
      assert candidates[..k + 1][..k] == candidates[..k];
      TotalWeightGrows(s, candidates, k + 1);
    }
  }

  // A pick below the total weight always lands on a candidate, and on the one whose share it falls in.
  lemma {:induction false} LocateShare(s: State, candidates: seq<int>, pick: nat, k: nat)
    requires Indices(s, candidates) && k <= |candidates|
    requires TotalWeight(s, candidates[..k]) <= pick < TotalWeight(s, candidates)
    ensures var r := Locate(s, candidates, pick, k);
      k <= r < |candidates| && TotalWeight(s, candidates[..r]) <= pick < TotalWeight(s, candidates[..r + 1])
    decreases |candidates| - k
  {
    assert candidates[..|candidates|] == candidates;
    if pick >= TotalWeight(s, candidates[..k + 1]) {
      LocateShare(s, candidates, pick, k + 1);
    }
  }

  ghost predicate Distinct(xs: seq<int>) {
    forall j, k :: 0 <= j < k < |xs| ==> xs[j] != xs[k]
  }

  // Whatever is drawn, the sample holds that many different candidates.
  lemma {:induction false} SampleDistinct(s: State, candidates: seq<int>, size: nat, draws: seq<nat>, round: nat)
    requires Indices(s, candidates) && size <= |candidates| && Distinct(candidates)
    ensures var r := Sample(s, candidates, size, draws, round);
      |r| == size && Distinct(r) && forall k :: 0 <= k < |r| ==> r[k] in candidates
    decreases size
  {
    if size > 0 {
      var k := Locate(s, candidates, Draw(draws, round, TotalWeight(s, candidates)), 0);
      hide Locate, Draw, TotalWeight;
      SwappedOut(candidates, k);
      SampleDistinct(s, SwapOut(candidates, k), size - 1, draws, round + 1);
    }
  }

  lemma SwappedOut(candidates: seq<int>, k: nat)
    requires k < |candidates| && Distinct(candidates)
    ensures Distinct(SwapOut(candidates, k))
    ensures forall j :: 0 <= j < |candidates| - 1 ==>
      SwapOut(candidates, k)[j] in candidates && SwapOut(candidates, k)[j] != candidates[k]
  {}

  lemma {:induction false} BestIsBest(s: State, samples: seq<int>)
    requires samples != [] && Indices(s, samples)
    ensures var b := Best(s, samples);
      b in samples && forall k :: 0 <= k < |samples| ==> samples[k] == b || Better(s, b, samples[k])
  {
    hide Available;
    if |samples| > 1 {
      var rest := samples[..|samples| - 1];
      BestIsBest(s, rest);
      forall k | 0 <= k < |samples| ensures samples[k] == Best(s, samples) || Better(s, Best(s, samples), samples[k]) {
        if k < |rest| { assert samples[k] == rest[k]; }
      }
    }
  }

  // Placement over a roster: a sample of the promised size, all eligible, and the best of it.
  lemma PlacementChooses(s: State, draws: seq<nat>)
    requires s.sampleSize > 0 && Eligible(s, |s.providers|) != []
    ensures var e := Eligible(s, |s.providers|);
      var size := if s.sampleSize > |e| then |e| else s.sampleSize;
      var sample := Sample(s, e, size, draws, 0);
      var b := Choose(s, e, draws);
      && |sample| == size && Distinct(sample) && b in sample && Available(s, b) > 0
      && (forall k :: 0 <= k < size ==> 0 <= sample[k] < |s.providers| && Available(s, sample[k]) > 0)
      && (forall k :: 0 <= k < size ==> sample[k] == b || Better(s, b, sample[k]))
  {
    hide Available, Better, Sample, Best, Eligible;
    var e := Eligible(s, |s.providers|);
    assert Distinct(e) by { EligibleMembers(s, |s.providers|); }
    var size := if s.sampleSize > |e| then |e| else s.sampleSize;
    SampleDistinct(s, e, size, draws, 0);
    var sample := Sample(s, e, size, draws, 0);
    forall k | 0 <= k < size ensures 0 <= sample[k] < |s.providers| && Available(s, sample[k]) > 0 {
      EligibleIs(s, sample[k]);
    }
    BestIsBest(s, sample);
    EligibleIs(s, Best(s, sample));
  }

  lemma EligibleIs(s: State, i: int)
    requires i in Eligible(s, |s.providers|)
    ensures 0 <= i < |s.providers| && Available(s, i) > 0
  {
    hide Available;
    var e := Eligible(s, |s.providers|);
    EligibleMembers(s, |s.providers|);
    var k :| 0 <= k < |e| && e[k] == i;
    assert Available(s, e[k]) > 0;
  }

  // ---------------------------------------------------------- opening a claim

  lemma StartedSets(cs: seq<Chunk>, i: int, c: Chunk)
    requires 0 <= i < |cs| && cs[i].phase.Unmapped?
    requires c.phase.Mapping? && c.evictionClaim == cs[i].evictionClaim
    ensures var ds := cs[i := c];
      && MappingSet(ds) == MappingSet(cs) + {i} && AssignedSet(ds) == AssignedSet(cs) && MappedSet(ds) == MappedSet(cs)
      && EvictingSet(ds) == EvictingSet(cs) && EvictionHeads(ds) == EvictionHeads(cs)
  {
    var ds := cs[i := c];
    assert forall k :: 0 <= k < |cs| ==> ds[k].evictionClaim == cs[k].evictionClaim;
  }

  lemma StartedOwned(cs: seq<Chunk>, i: int, c: Chunk, h: Handle)
    requires 0 <= i < |cs| && cs[i].phase.Unmapped? && c.phase.Mapping?
    ensures OwnedBy(cs[i := c], h) == OwnedBy(cs, h) + (if c.provider == h then {i} else {})
    ensures i !in OwnedBy(cs, h)
  {}

  // Availability above zero leaves room for one more debit.
  lemma RoomForOne(s: State, p: nat)
    requires Inv(s) && p < |s.providers| && Available(s, p) > 0
    ensures var q := s.providers[p];
      q.observed && !q.failed && q.eligible && Debits(s.chunks, q.handle) < q.observedDebits + q.reported
  {
    var q := s.providers[p];
    assert DebitOk(s, p);
    OwnedBounded(s.chunks, q.handle);
    ReconcileExact(q.reported, q.observedDebits, Debits(s.chunks, q.handle));
  }

  lemma OwnedBounded(cs: seq<Chunk>, h: Handle)
    ensures Debits(cs, h) <= |cs|
  {
    BoundedSize(OwnedBy(cs, h), |cs|);
  }

  lemma CreateClaimDebits(s: State, t: State, p: nat, chunk: nat)
    requires Inv(s) && p < |s.providers| && Available(s, p) > 0 && chunk < |s.chunks| && s.chunks[chunk].phase.Unmapped?
    requires t.providers == s.providers && |t.chunks| == |s.chunks|
    requires t.chunks == s.chunks[chunk := t.chunks[chunk]]
    requires t.chunks[chunk].phase.Mapping? && t.chunks[chunk].provider == s.providers[p].handle
    ensures DebitsOk(t)
  {
    hide OwnedBy, Available, ChunkOk;
    RoomForOne(s, p);
    forall i | 0 <= i < |t.providers| ensures DebitOk(t, i) {
      assert DebitOk(s, i);
      StartedOwned(s.chunks, chunk, t.chunks[chunk], t.providers[i].handle);
    }
  }

  lemma CreateClaimChunks(s: State, h: Handle, chunk: nat)
    requires Shape(s) && ChunksOk(s) && ClaimsOk(s) && LiveSlot(s, h)
    requires chunk < |s.chunks| && s.chunks[chunk].phase.Unmapped? && s.mappingClaims == 0
    requires CreateClaim(s, h, chunk).1.RequestMapping?
    ensures var t := CreateClaim(s, h, chunk).0; ChunksOk(t) && Evolves(s, t)
  {
    hide MappingSet, Digest;
    var t := CreateClaim(s, h, chunk).0;
    forall i | 0 <= i < |t.chunks| ensures ChunkOk(t, i) {
      assert ChunkOk(s, i);
      PhaseSets(s.chunks, i);
    }
  }

  lemma CreateClaimTables(s: State, h: Handle, chunk: nat)
    requires Shape(s) && ClaimsOk(s) && CountersOk(s) && BatchesOk(s) && GrantsUnique(s) && ValidityOk(s) && ModeOk(s)
    requires chunk < |s.chunks| && s.chunks[chunk].phase.Unmapped? && s.mappingClaims == 0
    requires CreateClaim(s, h, chunk).1.RequestMapping?
    ensures var t := CreateClaim(s, h, chunk).0;
      ClaimsOk(t) && CountersOk(t) && BatchesOk(t) && GrantsUnique(t) && ValidityOk(t) && ModeOk(t)
  {
    hide MappingSet, AssignedSet, MappedSet, EvictingSet, EvictionHeads, LeaseSum, Digest, Live;
    var t := CreateClaim(s, h, chunk).0;
    StartedSets(s.chunks, chunk, t.chunks[chunk]);
    LeaseSumUpdate(s.chunks, chunk, t.chunks[chunk]);
    assert MappingSet(s.chunks) == {};
    forall i | 0 <= i < |s.chunks| ensures !s.chunks[i].phase.Mapping? { PhaseSets(s.chunks, i); }
  }

  lemma PhaseSets(cs: seq<Chunk>, i: int)
    requires 0 <= i < |cs|
    ensures i in MappingSet(cs) <==> cs[i].phase.Mapping?
    ensures i in MappedSet(cs) <==> cs[i].phase.Mapped?
    ensures i in EvictingSet(cs) <==> cs[i].phase.Evicting?
    ensures i in AssignedSet(cs) <==> IsAssigned(cs[i])
  {}

  lemma CreateClaimKeeps(s: State, p: nat, chunk: nat)
    requires Inv(s) && p < |s.providers| && Available(s, p) > 0
    requires chunk < |s.chunks| && s.chunks[chunk].phase.Unmapped? && s.mappingClaims == 0
    ensures var t := CreateClaim(s, s.providers[p].handle, chunk).0; Inv(t) && Evolves(s, t)
  {
    hide ChunksOk, ClaimsOk, CountersOk, BatchesOk, GrantsUnique, ValidityOk, DebitsOk, ModeOk, Digest, Available, Live,
      Evolves;
    var h := s.providers[p].handle;
    LiveIffSlot(s, h);
    RoomForOne(s, p);
    if CreateClaim(s, h, chunk).1.RequestMapping? {
      CreateClaimChunks(s, h, chunk);
      CreateClaimTables(s, h, chunk);
      CreateClaimDebits(s, CreateClaim(s, h, chunk).0, p, chunk);
    }
    SelfEvolves(s);
  }

  lemma NextMappingKeeps(s: State, draws: seq<nat>)
    requires Inv(s)
    ensures var t := NextMapping(s, draws).0; Inv(t) && Evolves(s, t)
  {
    hide Inv, CreateClaim, SomePending, Available, FirstWanted, Eligible, Choose, Aggregate, Evolves;
    assert s.sampleSize > 0 by { SampleSizePositive(s); }
    var n := |s.providers|;
    if FirstWanted(s, 0).Some? && Eligible(s, n) != [] && s.mappingClaims == 0 {
      var p := Choose(s, Eligible(s, n), draws);
      assert Available(s, p) > 0 by { PlacementChooses(s, draws); }
      CreateClaimKeeps(s, p, FirstWanted(s, 0).value);
    }
    SelfEvolves(s);
  }

  lemma SampleSizePositive(s: State)
    requires Inv(s)
    ensures s.sampleSize > 0
  {}

  lemma SelfEvolves(s: State)
    ensures Evolves(s, s)
  {}

  // ---------------------------------------------------------- ending a claim

  // The open claim has exactly one chunk.
  lemma OpenClaim(s: State) returns (i: int)
    requires Inv(s) && ClaimWellFormed(s.activeClaim)
    ensures 0 <= i < |s.chunks| && s.chunks[i].phase.Mapping? && MappingSet(s.chunks) == {i}
    ensures ClaimedBy(s.chunks, s.activeClaim.id) == {i}
    ensures s.activeClaim == MappingClaim(true, s.epoch, s.chunks[i].provider, s.chunks[i].mappingClaim,
                                          s.chunks[i].transition, Digest(Selection(|s.chunks|, {i})), 1, 1)
    ensures s.mappingClaims == 1 && s.endedClaim == NO_CLAIM && s.activeClaim.id == s.lastMappingClaim
  {
    hide Digest;
    assert MappingSet(s.chunks) != {};
    i :| i in MappingSet(s.chunks);
    assert ChunkOk(s, i);
    assert MappingSet(s.chunks) == {i};
    forall j | 0 <= j < |s.chunks| ensures s.chunks[j].mappingClaim == s.activeClaim.id ==> j == i {
      assert ChunkOk(s, j);
      PhaseSets(s.chunks, j);
    }
  }

  lemma StoppedSets(cs: seq<Chunk>, i: int, c: Chunk)
    requires 0 <= i < |cs| && cs[i].phase.Mapping?
    requires (c.phase.Unmapped? || c.phase.Mapped?) && c.evictionClaim == cs[i].evictionClaim
    ensures var ds := cs[i := c];
      var gained := if c.phase.Mapped? then {i} else {};
      && MappingSet(ds) == MappingSet(cs) - {i}
      && AssignedSet(ds) == AssignedSet(cs) + gained && MappedSet(ds) == MappedSet(cs) + gained
      && EvictingSet(ds) == EvictingSet(cs) && EvictionHeads(ds) == EvictionHeads(cs)
  {
    var ds := cs[i := c];
    assert forall k :: 0 <= k < |cs| ==> ds[k].evictionClaim == cs[k].evictionClaim;
  }

  lemma StoppedOwned(cs: seq<Chunk>, i: int, c: Chunk, h: Handle)
    requires 0 <= i < |cs| && cs[i].phase.Mapping? && (c.phase.Unmapped? || c.provider == cs[i].provider)
    ensures OwnedBy(cs[i := c], h) <= OwnedBy(cs, h)
  {}

  // Closing the claim on chunk i, whichever way it ends.
  ghost predicate Closes(s: State, t: State, i: int) {
    && 0 <= i < |s.chunks| == |t.chunks| && s.chunks[i].phase.Mapping? && MappingSet(s.chunks) == {i}
    && t.chunks == s.chunks[i := t.chunks[i]]
    && t.chunks[i].leases == s.chunks[i].leases && t.chunks[i].evictionClaim == s.chunks[i].evictionClaim
    && t == s.(chunks := t.chunks, valid := t.valid, lastGeneration := t.lastGeneration, mappingClaims := 0,
               assignedCount := t.assignedCount, usableCount := t.usableCount,
               activeClaim := NO_CLAIM, endedClaim := s.activeClaim, endedAction := t.endedAction)
  }

  lemma CloseDebits(s: State, t: State, i: int)
    requires DebitsOk(s) && Closes(s, t, i)
    requires t.chunks[i].phase.Unmapped? || t.chunks[i].provider == s.chunks[i].provider
    ensures DebitsOk(t)
  {
    hide OwnedBy, MappingSet;
    forall k | 0 <= k < |t.providers| ensures DebitOk(t, k) {
      assert DebitOk(s, k);
      StoppedOwned(s.chunks, i, t.chunks[i], t.providers[k].handle);
      DebitsShrink(s.chunks, t.chunks, t.providers[k].handle);
    }
  }

  lemma CloseTables(s: State, t: State, i: int)
    requires Inv(s) && ClaimWellFormed(s.activeClaim) && Closes(s, t, i)
    requires t.chunks[i].phase.Unmapped? || t.chunks[i].phase.Mapped?
    requires t.assignedCount == s.assignedCount + (if t.chunks[i].phase.Mapped? then 1 else 0)
    requires t.usableCount == s.usableCount + (if t.chunks[i].phase.Mapped? then 1 else 0)
    requires t.valid <= s.valid
    requires t.chunks[i].phase.Mapped? ==>
      forall j :: 0 <= j < |s.chunks| && IsAssigned(s.chunks[j]) && s.chunks[j].provider == t.chunks[i].provider ==>
        s.chunks[j].providerChunk != t.chunks[i].providerChunk
    ensures ClaimsOk(t) && CountersOk(t) && BatchesOk(t) && GrantsUnique(t) && ValidityOk(t) && ModeOk(t)
  {
    hide ClaimsOk, CountersOk, BatchesOk, GrantsUnique, ValidityOk, ModeOk, ChunksOk, DebitsOk, Closes, ClaimWellFormed;
    CloseCounters(s, t, i);
    CloseLists(s, t, i);
  }

  lemma CloseCounters(s: State, t: State, i: int)
    requires Inv(s) && ClaimWellFormed(s.activeClaim) && Closes(s, t, i)
    requires t.chunks[i].phase.Unmapped? || t.chunks[i].phase.Mapped?
    requires t.assignedCount == s.assignedCount + (if t.chunks[i].phase.Mapped? then 1 else 0)
    requires t.usableCount == s.usableCount + (if t.chunks[i].phase.Mapped? then 1 else 0)
    ensures ClaimsOk(t) && CountersOk(t)
  {
    hide MappingSet, AssignedSet, MappedSet, EvictingSet, EvictionHeads, LeaseSum, Digest, BatchesOk, GrantsUnique, ValidityOk,
      DebitsOk, ModeOk;
    var i' := OpenClaim(s);
    StoppedSets(s.chunks, i, t.chunks[i]);
    LeaseSumUpdate(s.chunks, i, t.chunks[i]);
    SetsIndex(s.chunks);
    PhaseSets(s.chunks, i);
  }

  lemma CloseLists(s: State, t: State, i: int)
    requires BatchesOk(s) && GrantsUnique(s) && ValidityOk(s) && ModeOk(s) && Closes(s, t, i)
    requires t.chunks[i].phase.Unmapped? || t.chunks[i].phase.Mapped?
    requires t.valid <= s.valid
    requires t.chunks[i].phase.Mapped? ==>
      forall j :: 0 <= j < |s.chunks| && IsAssigned(s.chunks[j]) && s.chunks[j].provider == t.chunks[i].provider ==>
        s.chunks[j].providerChunk != t.chunks[i].providerChunk
    ensures BatchesOk(t) && GrantsUnique(t) && ValidityOk(t) && ModeOk(t)
  {
    hide MappingSet;
  }

  lemma CloseChunks(s: State, t: State, i: int)
    requires Inv(s) && ClaimWellFormed(s.activeClaim) && Closes(s, t, i) && s.lastGeneration <= t.lastGeneration <= ID_MAX
    requires
      || t.chunks[i] == s.chunks[i].(provider := NO_PROVIDER, mappingClaim := 0, transition := 0, phase := Unmapped)
      || exists g :: GrantUsable(s, g) && t.chunks[i] == Grown(s.chunks[i], g, t.lastGeneration)
                     && t.lastGeneration > s.lastGeneration
    ensures ChunksOk(t) && Evolves(s, t)
  {
    hide Digest, MappingSet, DebitsOk, ClaimsOk, CountersOk, BatchesOk, GrantsUnique, ValidityOk, ModeOk;
    var i' := OpenClaim(s);
    forall j | 0 <= j < |t.chunks| ensures ChunkOk(t, j) && (Kept(s.chunks[j], t.chunks[j]) || Retired(s, t, j)) {
      assert ChunkOk(s, j);
      PhaseSets(s.chunks, j);
    }
  }

  lemma AbortKeeps(s: State, c: MappingClaim, h: Handle)
    requires Inv(s) && FinishMapping(s, c, Abort, h, []).1.Aborted?
    ensures var t := FinishMapping(s, c, Abort, h, []).0;
      Inv(t) && Evolves(s, t) && exists i :: Closes(s, t, i) && t.chunks[i].phase.Unmapped?
  {
    hide Digest, MappingSet, DebitsOk, ClaimsOk, CountersOk, BatchesOk, GrantsUnique, ValidityOk, ModeOk;
    var t := FinishMapping(s, c, Abort, h, []).0;
    assert s.activeClaim == c;
    var i := OpenClaim(s);
    assert forall j :: 0 <= j < |s.chunks| ==> (s.chunks[j].mappingClaim == c.id <==> j in ClaimedBy(s.chunks, c.id));
    assert t.chunks == s.chunks[i := t.chunks[i]];
    assert Closes(s, t, i);
    CloseTables(s, t, i);
    CloseDebits(s, t, i);
    CloseChunks(s, t, i);
  }

  // A committed claim has one grant, for its own chunk.
  lemma CommitShape(s: State, c: MappingClaim, h: Handle, grants: seq<Grant>)
    requires Inv(s) && FinishMapping(s, c, Commit, h, grants).1.Committed?
    ensures var t := FinishMapping(s, c, Commit, h, grants).0;
      && |grants| == 1 && ClaimWellFormed(s.activeClaim) && c == s.activeClaim && c.id <= s.lastMappingClaim
      && Closes(s, t, grants[0].chunk) && GrantAvailable(s, c, grants[0]) && GrantUsable(s, grants[0])
      && t.chunks[grants[0].chunk] == Grown(s.chunks[grants[0].chunk], grants[0], s.lastGeneration + 1)
      && t.lastGeneration == s.lastGeneration + 1 <= ID_MAX && t.valid == s.valid - ChunkSectors(grants[0].chunk)
      && t.assignedCount == s.assignedCount + 1 && t.usableCount == s.usableCount + 1 && t.endedAction.CommitTerminal?
  {
    hide Digest, MappingSet, DebitsOk, ClaimsOk, CountersOk, BatchesOk, GrantsUnique, ValidityOk, ModeOk, ChunkSectors;
    assert s.activeClaim == c;
    var i := OpenClaim(s);
    var g := grants[0];
    assert grants == [g] && grants[..0] == [];
    assert GrantAvailable(s, c, g);
    assert g.chunk in ClaimedBy(s.chunks, c.id);
    assert ApplyGrants(s, grants[..0]) == s;
  }

  lemma CommitKeeps(s: State, c: MappingClaim, h: Handle, grants: seq<Grant>)
    requires Inv(s) && FinishMapping(s, c, Commit, h, grants).1.Committed?
    ensures var t := FinishMapping(s, c, Commit, h, grants).0;
      && Inv(t) && Evolves(s, t)
  {
    hide FinishMapping, Digest, MappingSet, ChunksOk, DebitsOk, ClaimsOk, CountersOk, BatchesOk, GrantsUnique, ValidityOk,
      ModeOk, Evolves;
    var t := FinishMapping(s, c, Commit, h, grants).0;
    CommitShape(s, c, h, grants);
    var i := grants[0].chunk;
    CloseTables(s, t, i);
    CloseDebits(s, t, i);
    CloseChunks(s, t, i);
  }

  lemma FinishMappingKeeps(s: State, c: MappingClaim, action: FinishAction, h: Handle, grants: seq<Grant>)
    requires Inv(s)
    ensures var t := FinishMapping(s, c, action, h, grants).0; Inv(t) && Evolves(s, t)
  {
    hide Inv, Evolves, ClaimIsActive, GrantsShaped, GrantAvailable, GrantMatches, ApplyGrants, Live;
    var r := FinishMapping(s, c, action, h, grants).1;
    if r.Committed? {
      CommitKeeps(s, c, h, grants);
    } else if r.Aborted? {
      AbortKeeps(s, c, h);
    } else {
      SelfEvolves(s);
    }
  }

  // --------------------------------------------------------------- evictions

  lemma {:induction false} BatchSelected(s: State, h: Handle, ids: seq<nat>, n: nat)
    requires n <= |ids|
    ensures var (chosen, status) := SelectBatch(s, h, ids, n);
      && chosen <= MappedSet(s.chunks) && (status.Ok? ==> |chosen| == n)
      && forall i :: i in chosen ==> s.chunks[i].provider == h
  {
    if n > 0 { BatchSelected(s, h, ids, n - 1); }
  }

  lemma Pick<T>(a: set<T>) returns (x: T)
    requires a != {}
    ensures x in a
  {
    x :| x in a;
  }

  lemma {:induction false} Minimum(a: set<int>) returns (m: int)
    requires a != {}
    ensures m in a && forall i :: i in a ==> m <= i
  {
    var x := Pick(a);
    var rest := a - {x};
    m := x;
    if rest != {} {
      var y := Minimum(rest);
      if y < x { m := y; }
    }
    assert forall i :: i in a ==> i == x || i in rest;
  }

  lemma ClosedSets(cs: seq<Chunk>, chosen: set<int>, id: nat, transition: nat)
    requires chosen <= MappedSet(cs)
    ensures var ds := Close(cs, chosen, id, transition);
      && MappingSet(ds) == MappingSet(cs) && AssignedSet(ds) == AssignedSet(cs)
      && MappedSet(ds) == MappedSet(cs) - chosen && EvictingSet(ds) == EvictingSet(cs) + chosen
  {}

  // A chunk stays the first of its batch while no earlier chunk joins or leaves that batch.
  lemma SameHead(cs: seq<Chunk>, ds: seq<Chunk>, i: int)
    requires |cs| == |ds| && 0 <= i < |cs| && ds[i].evictionClaim == cs[i].evictionClaim
    requires forall j :: 0 <= j < i ==>
      (cs[j].evictionClaim == cs[i].evictionClaim <==> ds[j].evictionClaim == cs[i].evictionClaim)
    ensures HeadsEviction(ds, i) <==> HeadsEviction(cs, i)
  {}

  lemma HeadMember(cs: seq<Chunk>, i: int)
    requires 0 <= i < |cs|
    ensures i in EvictionHeads(cs) <==> cs[i].phase.Evicting? && HeadsEviction(cs, i)
  {}

  lemma ClosedHead(cs: seq<Chunk>, chosen: set<int>, id: nat, transition: nat, m: int, i: int)
    requires forall k :: k in chosen ==> 0 <= k < |cs| && cs[k].phase.Mapped?
    requires m in chosen && (forall k :: k in chosen ==> m <= k) && 0 <= i < |cs|
    requires forall k :: 0 <= k < |cs| ==> cs[k].evictionClaim < id
    requires forall k :: 0 <= k < |cs| ==> (cs[k].evictionClaim != 0 <==> cs[k].phase.Evicting?)
    ensures i in EvictionHeads(Close(cs, chosen, id, transition)) <==> i in EvictionHeads(cs) || i == m
  {
    hide EvictionHeads;
    var ds := Close(cs, chosen, id, transition);
    HeadMember(cs, i);
    HeadMember(ds, i);
    if i in chosen {
      if i != m { assert ds[m].evictionClaim == ds[i].evictionClaim; }
    } else if cs[i].phase.Evicting? {
      SameHead(cs, ds, i);
    }
  }

  lemma ClosedHeads(cs: seq<Chunk>, chosen: set<int>, id: nat, transition: nat)
    requires chosen != {} && forall k :: k in chosen ==> 0 <= k < |cs| && cs[k].phase.Mapped?
    requires forall i :: 0 <= i < |cs| ==> cs[i].evictionClaim < id
    requires forall i :: 0 <= i < |cs| ==> (cs[i].evictionClaim != 0 <==> cs[i].phase.Evicting?)
    ensures |EvictionHeads(Close(cs, chosen, id, transition))| == |EvictionHeads(cs)| + 1
  {
    var ds := Close(cs, chosen, id, transition);
    var m := Minimum(chosen);
    forall i | 0 <= i < |cs| ensures i in EvictionHeads(ds) <==> i in EvictionHeads(cs) || i == m {
      ClosedHead(cs, chosen, id, transition, m, i);
    }
    hide HeadsEviction;
    assert EvictionHeads(ds) == EvictionHeads(cs) + {m};
    assert m !in EvictionHeads(cs);
  }

  // What a successful begin does to the state.
  ghost predicate Begins(s: State, t: State, chosen: set<int>, h: Handle) {
    && chosen <= MappedSet(s.chunks) && chosen != {} && |chosen| <= s.usableCount
    && (forall i :: i in chosen ==> 0 <= i < |s.chunks| && s.chunks[i].phase.Mapped? && s.chunks[i].provider == h)
    && s.lastEvictionClaim < ID_MAX && s.lastTransition < ID_MAX && s.mode.Backed?
    && t == s.(chunks := Close(s.chunks, chosen, s.lastEvictionClaim + 1, s.lastTransition + 1),
               lastEvictionClaim := s.lastEvictionClaim + 1, lastTransition := s.lastTransition + 1,
               endedClaim := NO_CLAIM, endedAction := NoTerminal, usableCount := s.usableCount - |chosen|,
               evictionClaims := s.evictionClaims + 1)
  }

  lemma BeginShape(s: State, h: Handle, ids: seq<nat>, prior: EvictionClaim)
    requires BeginEviction(s, h, ids, prior).1.Ok?
    ensures Begins(s, BeginEviction(s, h, ids, prior).0, SelectBatch(s, h, ids, |ids|).0, h)
  {
    hide Digest, CheckEviction, Live, Selection, SelectBatch, Close, FindChunk;
    BatchSelected(s, h, ids, |ids|);
  }

  lemma EvictionNumber(s: State, i: int)
    requires ChunksOk(s) && 0 <= i < |s.chunks|
    ensures s.chunks[i].evictionClaim <= s.lastEvictionClaim
    ensures s.chunks[i].evictionClaim != 0 <==> s.chunks[i].phase.Evicting?
  {
    hide LiveSlot;
    assert ChunkOk(s, i);
  }

  lemma ClosedKeeps(cs: seq<Chunk>, chosen: set<int>, id: nat, transition: nat, i: int)
    requires 0 <= i < |cs|
    ensures var d := Close(cs, chosen, id, transition)[i]; d.leases == cs[i].leases && (d.phase.Mapping? ==> cs[i].phase.Mapping?)
  {}

  lemma BeginCounters(s: State, t: State, chosen: set<int>, h: Handle)
    requires Inv(s) && Begins(s, t, chosen, h)
    ensures ClaimsOk(t) && CountersOk(t)
  {
    hide MappingSet, AssignedSet, MappedSet, EvictingSet, EvictionHeads, LeaseSum, Digest, ChunksOk, BatchesOk, GrantsUnique,
      ValidityOk, DebitsOk, ModeOk, Close;
    forall i | 0 <= i < |s.chunks|
      ensures s.chunks[i].evictionClaim <= s.lastEvictionClaim
      ensures s.chunks[i].evictionClaim != 0 <==> s.chunks[i].phase.Evicting?
    {
      EvictionNumber(s, i);
    }
    forall i | 0 <= i < |s.chunks|
      ensures t.chunks[i].leases == s.chunks[i].leases && (t.chunks[i].phase.Mapping? ==> s.chunks[i].phase.Mapping?)
    {
      ClosedKeeps(s.chunks, chosen, t.lastEvictionClaim, t.lastTransition, i);
    }
    ClosedSets(s.chunks, chosen, t.lastEvictionClaim, t.lastTransition);
    ClosedHeads(s.chunks, chosen, t.lastEvictionClaim, t.lastTransition);
    LeaseSumSame(s.chunks, t.chunks);
  }

  lemma BeginBatches(s: State, t: State, chosen: set<int>, h: Handle)
    requires Shape(s) && ChunksOk(s) && BatchesOk(s) && Begins(s, t, chosen, h)
    ensures BatchesOk(t)
  {
    hide MappedSet, ChunksOk, ChunkOk, Close, BatchesOk;
    forall i | 0 <= i < |s.chunks| && s.chunks[i].phase.Evicting? ensures s.chunks[i].evictionClaim < t.lastEvictionClaim {
      EvictingNumbered(s, i);
    }
    forall i, j | 0 <= i < |s.chunks| && 0 <= j < |s.chunks| ensures SameBatch(t.chunks, i, j) {
      assert SameBatch(s.chunks, i, j) by { BatchesMean(s, i, j); }
      ClosedBatch(s.chunks, chosen, h, t.lastEvictionClaim, t.lastTransition, i, j);
    }
    SameBatches(t);
  }

  // Two chunks with one eviction claim belong to one Provider's batch.
  ghost predicate SameBatch(cs: seq<Chunk>, i: int, j: int)
    requires 0 <= i < |cs| && 0 <= j < |cs|
  {
    cs[i].phase.Evicting? && cs[j].phase.Evicting? && cs[i].evictionClaim == cs[j].evictionClaim ==>
      cs[i].provider == cs[j].provider && cs[i].transition == cs[j].transition
  }

  lemma BatchesMean(s: State, i: int, j: int)
    requires BatchesOk(s) && 0 <= i < |s.chunks| && 0 <= j < |s.chunks|
    ensures SameBatch(s.chunks, i, j)
  {}

  lemma SameBatches(s: State)
    requires forall i, j :: 0 <= i < |s.chunks| && 0 <= j < |s.chunks| ==> SameBatch(s.chunks, i, j)
    ensures BatchesOk(s)
  {
    forall i, j | 0 <= i < |s.chunks| && 0 <= j < |s.chunks| && s.chunks[i].phase.Evicting? && s.chunks[j].phase.Evicting?
                  && s.chunks[i].evictionClaim == s.chunks[j].evictionClaim
      ensures s.chunks[i].provider == s.chunks[j].provider && s.chunks[i].transition == s.chunks[j].transition
    {
      assert SameBatch(s.chunks, i, j);
    }
  }

  lemma EvictingNumbered(s: State, i: int)
    requires ChunksOk(s) && 0 <= i < |s.chunks| && s.chunks[i].phase.Evicting?
    ensures s.chunks[i].evictionClaim <= s.lastEvictionClaim
  {
    hide LiveSlot;
    assert ChunkOk(s, i);
  }

  // The chosen chunks, all of one Provider, get a number no other chunk has.
  lemma ClosedBatch(cs: seq<Chunk>, chosen: set<int>, h: Handle, id: nat, transition: nat, i: int, j: int)
    requires 0 <= i < |cs| && 0 <= j < |cs| && SameBatch(cs, i, j)
    requires forall k :: k in chosen ==> 0 <= k < |cs| && cs[k].provider == h
    requires forall k :: 0 <= k < |cs| && cs[k].phase.Evicting? ==> cs[k].evictionClaim < id
    ensures SameBatch(Close(cs, chosen, id, transition), i, j)
  {}

  // Closing chunks to new leases leaves each where it is.
  lemma ClosedPlaced(cs: seq<Chunk>, chosen: set<int>, id: nat, transition: nat, i: int)
    requires 0 <= i < |cs| && (i in chosen ==> cs[i].phase.Mapped?)
    ensures var d := Close(cs, chosen, id, transition)[i];
      (IsAssigned(d) <==> IsAssigned(cs[i])) && d.provider == cs[i].provider && d.providerChunk == cs[i].providerChunk
  {}

  lemma BeginTables(s: State, t: State, chosen: set<int>, h: Handle)
    requires Shape(s) && GrantsUnique(s) && ValidityOk(s) && Begins(s, t, chosen, h)
    ensures GrantsUnique(t) && ValidityOk(t) && ModeOk(t)
  {
    hide MappedSet, Close, IsAssigned, ChunkOf;
    forall i | 0 <= i < |s.chunks|
      ensures IsAssigned(t.chunks[i]) <==> IsAssigned(s.chunks[i])
      ensures t.chunks[i].provider == s.chunks[i].provider && t.chunks[i].providerChunk == s.chunks[i].providerChunk
    {
      ClosedPlaced(s.chunks, chosen, t.lastEvictionClaim, t.lastTransition, i);
    }
  }

  lemma BeginRest(s: State, t: State, chosen: set<int>, h: Handle)
    requires Inv(s) && Begins(s, t, chosen, h)
    ensures ChunksOk(t) && DebitsOk(t) && Evolves(s, t)
  {
    hide MappingSet, AssignedSet, MappedSet, EvictingSet, EvictionHeads, LeaseSum, Digest, OwnedBy;
    forall i | 0 <= i < |t.chunks| ensures ChunkOk(t, i) && Kept(s.chunks[i], t.chunks[i]) {
      assert ChunkOk(s, i);
    }
    forall i | 0 <= i < |t.providers| ensures DebitOk(t, i) {
      assert DebitOk(s, i);
      ClosedOwned(s.chunks, chosen, t.lastEvictionClaim, t.lastTransition, t.providers[i].handle);
    }
  }

  lemma ClosedOwned(cs: seq<Chunk>, chosen: set<int>, id: nat, transition: nat, h: Handle)
    requires chosen <= MappedSet(cs)
    ensures OwnedBy(Close(cs, chosen, id, transition), h) == OwnedBy(cs, h)
  {}

  lemma BeginEvictionKeeps(s: State, h: Handle, ids: seq<nat>, prior: EvictionClaim)
    requires Inv(s)
    ensures var t := BeginEviction(s, h, ids, prior).0; Inv(t) && Evolves(s, t)
  {
    hide ChunksOk, ClaimsOk, CountersOk, BatchesOk, GrantsUnique, ValidityOk, DebitsOk, ModeOk, Evolves, Digest, Live,
      CheckEviction, MappedSet;
    var (t, status, _) := BeginEviction(s, h, ids, prior);
    if status.Ok? {
      var chosen := SelectBatch(s, h, ids, |ids|).0;
      BeginShape(s, h, ids, prior);
      BeginCounters(s, t, chosen, h);
      BeginBatches(s, t, chosen, h);
      BeginTables(s, t, chosen, h);
      BeginRest(s, t, chosen, h);
    } else {
      SelfEvolves(s);
    }
  }

  // ------------------------------------------------------- resetting mappings

  // Members are unmapped under newer generations; the other chunks are untouched.
  ghost predicate ResetOf(cs: seq<Chunk>, ds: seq<Chunk>, members: set<int>, top: nat) {
    && |cs| == |ds|
    && forall i :: 0 <= i < |cs| ==>
         if i in members
         then ds[i] == ResetChunk(cs[i], ds[i].generation, false).(activity := ds[i].activity)
              && cs[i].generation < ds[i].generation <= top
         else ds[i] == cs[i]
  }

  lemma ResetAt(cs: seq<Chunk>, members: set<int>, generation: nat, cool: bool, i: int)
    requires 0 <= i < |cs|
    ensures ResetChunks(cs, members, generation, cool)[i]
      == if i in members then ResetChunk(cs[i], generation + Rank(members, i), cool) else cs[i]
  {
    hide Rank;
  }

  lemma ResetMembersReset(s: State, members: set<int>, cool: bool)
    requires Shape(s) && ChunksOk(s)
    ensures ResetOf(s.chunks, ResetChunks(s.chunks, members, s.lastGeneration, cool), members, s.lastGeneration + |members|)
  {
    var ds := ResetChunks(s.chunks, members, s.lastGeneration, cool);
    assert |ds| == |s.chunks|;
    hide Rank, ResetChunks;
    forall i | 0 <= i < |s.chunks|
      ensures if i in members
        then ds[i] == ResetChunk(s.chunks[i], ds[i].generation, false).(activity := ds[i].activity)
             && s.chunks[i].generation < ds[i].generation <= s.lastGeneration + |members|
        else ds[i] == s.chunks[i]
    {
      assert ChunkOk(s, i);
      ResetAt(s.chunks, members, s.lastGeneration, cool, i);
      if i in members { RankBounds(members, i); }
    }
  }

  lemma ResetSets(cs: seq<Chunk>, ds: seq<Chunk>, members: set<int>, top: nat)
    requires ResetOf(cs, ds, members, top)
    ensures MappingSet(ds) == MappingSet(cs) - members && AssignedSet(ds) == AssignedSet(cs) - members
    ensures MappedSet(ds) == MappedSet(cs) - members
    ensures LeaseSum(ds) == LeaseSum(cs)
  {
    LeaseSumSame(cs, ds);
  }

  lemma ResetOwned(cs: seq<Chunk>, ds: seq<Chunk>, members: set<int>, top: nat, h: Handle)
    requires ResetOf(cs, ds, members, top)
    ensures OwnedBy(ds, h) == OwnedBy(cs, h) - members
  {}

  // Members take whole batches with them.
  ghost predicate WholeBatches(cs: seq<Chunk>, members: set<int>) {
    forall i, j :: 0 <= i < |cs| && 0 <= j < |cs| && cs[i].phase.Evicting? && i !in members && j in members ==>
      cs[j].evictionClaim != cs[i].evictionClaim
  }

  lemma ResetHead(cs: seq<Chunk>, ds: seq<Chunk>, members: set<int>, top: nat, i: int)
    requires ResetOf(cs, ds, members, top) && WholeBatches(cs, members) && 0 <= i < |cs|
    requires cs[i].phase.Evicting? ==> cs[i].evictionClaim != 0
    ensures i in EvictionHeads(ds) <==> i in EvictionHeads(cs) && i !in members
  {
    hide EvictionHeads;
    HeadMember(cs, i);
    HeadMember(ds, i);
    if i !in members && cs[i].phase.Evicting? { SameHead(cs, ds, i); }
  }

  lemma ResetHeads(cs: seq<Chunk>, ds: seq<Chunk>, members: set<int>, top: nat)
    requires ResetOf(cs, ds, members, top) && WholeBatches(cs, members)
    requires forall i :: 0 <= i < |cs| && cs[i].phase.Evicting? ==> cs[i].evictionClaim != 0
    ensures EvictionHeads(ds) == EvictionHeads(cs) - members
  {
    forall i | 0 <= i < |cs| ensures i in EvictionHeads(ds) <==> i in EvictionHeads(cs) && i !in members {
      ResetHead(cs, ds, members, top, i);
    }
  }

  lemma ResetTables(s: State, t: State, members: set<int>)
    requires BatchesOk(s) && GrantsUnique(s) && ModeOk(s) && t.mode == s.mode
    requires ResetOf(s.chunks, t.chunks, members, t.lastGeneration)
    ensures BatchesOk(t) && GrantsUnique(t) && ModeOk(t)
  {}

  lemma ResetValidity(s: State, t: State, members: set<int>)
    requires ValidityOk(s) && ResetOf(s.chunks, t.chunks, members, t.lastGeneration)
    requires t.valid == Invalidate(s.valid, members)
    ensures ValidityOk(t)
  {}

  lemma ResetDebits(s: State, t: State, members: set<int>)
    requires DebitsOk(s) && ResetOf(s.chunks, t.chunks, members, t.lastGeneration)
    requires |t.providers| == |s.providers|
    requires forall i :: 0 <= i < |s.providers| ==>
      var p, q := s.providers[i], t.providers[i];
      q.handle == p.handle && q.observed == p.observed && q.observedDebits == p.observedDebits
      && q.reported == p.reported && (p.failed ==> q.failed)
    ensures DebitsOk(t)
  {
    hide OwnedBy;
    forall i | 0 <= i < |t.providers| ensures DebitOk(t, i) {
      assert DebitOk(s, i);
      var h := t.providers[i].handle;
      ResetOwned(s.chunks, t.chunks, members, t.lastGeneration, h);
      SubsetSize(OwnedBy(t.chunks, h), OwnedBy(s.chunks, h));
    }
  }

  // ------------------------------------------------------ finishing evictions

  // A valid eviction claim names exactly its own batch.
  lemma EvictedBatch(s: State, c: EvictionClaim)
    requires CheckEviction(s, c).Ok?
    ensures var members := EvictedBy(s.chunks, c.id);
      && |members| == c.count && members != {} && WholeBatches(s.chunks, members)
      && (forall i :: i in members ==> 0 <= i < |s.chunks| && s.chunks[i].phase.Evicting?)
  {
    hide Digest, Live;
  }

  lemma OneHead(cs: seq<Chunk>, id: nat)
    requires EvictedBy(cs, id) != {} && forall i :: i in EvictedBy(cs, id) ==> cs[i].phase.Evicting?
    ensures |EvictionHeads(cs) - EvictedBy(cs, id)| == |EvictionHeads(cs)| - 1
  {
    var members := EvictedBy(cs, id);
    var m := Minimum(members);
    forall j | 0 <= j < m ensures cs[j].evictionClaim != id { assert j !in members; }
    forall i | i in members ensures i in EvictionHeads(cs) <==> i == m {
      HeadMember(cs, i);
      assert cs[i].evictionClaim == cs[m].evictionClaim;
    }
    hide HeadsEviction;
    assert EvictionHeads(cs) - members == EvictionHeads(cs) - {m};
  }

  ghost predicate Finishes(s: State, t: State, id: nat) {
    var members := EvictedBy(s.chunks, id);
    && members != {} && WholeBatches(s.chunks, members)
    && (forall i :: i in members ==> 0 <= i < |s.chunks| && s.chunks[i].phase.Evicting? && s.chunks[i].leases == 0)
    && |members| <= s.assignedCount && s.evictionClaims > 0 && t.lastGeneration <= ID_MAX
    && ResetOf(s.chunks, t.chunks, members, t.lastGeneration)
    && t == s.(chunks := t.chunks, lastGeneration := s.lastGeneration + |members|, valid := Invalidate(s.valid, members),
               assignedCount := s.assignedCount - |members|, evictionClaims := s.evictionClaims - 1)
  }

  lemma FinishShape(s: State, c: EvictionClaim)
    requires Shape(s) && ChunksOk(s) && FinishEviction(s, c).1.Ok?
    ensures Finishes(s, FinishEviction(s, c).0, c.id)
  {
    hide CheckEviction, WholeBatches, ResetOf, ResetChunks, LiveSlot;
    EvictedBatch(s, c);
    ResetMembersReset(s, EvictedBy(s.chunks, c.id), true);
  }

  lemma FinishCounters(s: State, t: State, id: nat)
    requires Shape(s) && ChunksOk(s) && ClaimsOk(s) && CountersOk(s) && Finishes(s, t, id)
    ensures ClaimsOk(t) && CountersOk(t)
  {
    hide EvictionHeads, MappingSet, MappedSet, AssignedSet, LeaseSum, Digest, LiveSlot, EvictedBy, Invalidate;
    var members := EvictedBy(s.chunks, id);
    forall i | 0 <= i < |s.chunks| && s.chunks[i].phase.Evicting? ensures s.chunks[i].evictionClaim != 0 {
      assert ChunkOk(s, i);
    }
    forall i | i in members
      ensures i in AssignedSet(s.chunks) && i !in MappedSet(s.chunks) && i !in MappingSet(s.chunks)
    {
      PhaseSets(s.chunks, i);
    }
    ResetSets(s.chunks, t.chunks, members, t.lastGeneration);
    ResetHeads(s.chunks, t.chunks, members, t.lastGeneration);
    OneHead(s.chunks, id);
    assert members <= AssignedSet(s.chunks);
    assert MappedSet(s.chunks) - members == MappedSet(s.chunks);
    assert MappingSet(s.chunks) - members == MappingSet(s.chunks);
  }

  lemma FinishChunks(s: State, t: State, id: nat)
    requires Shape(s) && ChunksOk(s) && Finishes(s, t, id)
    ensures Shape(t) && ChunksOk(t) && Evolves(s, t)
  {
    hide EvictedBy, Digest, Invalidate;
    forall i | 0 <= i < |t.chunks| ensures ChunkOk(t, i) && (Kept(s.chunks[i], t.chunks[i]) || Retired(s, t, i)) {
      assert ChunkOk(s, i);
    }
  }

  lemma FinishEvictionKeeps(s: State, c: EvictionClaim)
    requires Inv(s)
    ensures var t := FinishEviction(s, c).0; Inv(t) && Evolves(s, t)
  {
    hide CheckEviction, Drained, ResetMembers, ChunksOk, ClaimsOk, CountersOk, BatchesOk, GrantsUnique, ValidityOk, ModeOk,
      DebitsOk, Evolves, EvictedBy, ResetOf, WholeBatches;
    var (t, status) := FinishEviction(s, c);
    if status.Ok? {
      FinishShape(s, c);
      var members := EvictedBy(s.chunks, c.id);
      FinishCounters(s, t, c.id);
      FinishChunks(s, t, c.id);
      ResetTables(s, t, members);
      ResetValidity(s, t, members);
      ResetDebits(s, t, members);
    } else {
      QuietKeeps(s, t);
    }
  }

  // -------------------------------------------------------- Provider failure

  // Every open claim's chunk stands for its own batch.
  lemma MappingHeadsAll(s: State)
    requires ChunksOk(s) && ClaimsOk(s)
    ensures MappingHeads(s.chunks) == MappingSet(s.chunks)
  {
    hide Digest, LiveSlot;
    forall i | i in MappingSet(s.chunks) ensures HeadsMapping(s.chunks, i) {
      forall j | 0 <= j < i ensures s.chunks[j].mappingClaim != s.chunks[i].mappingClaim {
        assert ChunkOk(s, i) && ChunkOk(s, j);
      }
    }
  }

  lemma OwnedBatches(s: State, h: Handle)
    requires ChunksOk(s) && BatchesOk(s)
    ensures WholeBatches(s.chunks, OwnedBy(s.chunks, h))
  {
    hide Digest, LiveSlot;
    forall i, j | 0 <= i < |s.chunks| && 0 <= j < |s.chunks| && s.chunks[i].phase.Evicting?
      && i !in OwnedBy(s.chunks, h) && j in OwnedBy(s.chunks, h)
      ensures s.chunks[j].evictionClaim != s.chunks[i].evictionClaim
    {
      assert ChunkOk(s, i) && ChunkOk(s, j);
    }
  }

  lemma CutSize(a: set<int>, b: set<int>)
    ensures |a - b| == |a| - |b * a|
  {
    assert b * a == a * b;
  }

  lemma Apart<T>(a: set<T>, b: set<T>)
    requires |a * b| == 0
    ensures b - a == b
  {
    assert forall x :: x in a && x in b ==> x in a * b;
  }

  ghost predicate Fails(s: State, t: State, h: Handle) {
    var owned := OwnedBy(s.chunks, h);
    var open := |owned * MappingSet(s.chunks)|;
    && LiveSlot(s, h) && s.lastTransition < ID_MAX && t.lastGeneration <= ID_MAX
    && (open != 0 ==> ClaimWellFormed(s.activeClaim) && s.activeClaim.provider == h)
    && ResetOf(s.chunks, t.chunks, owned, t.lastGeneration)
    && |t.providers| == |s.providers|
    && t.providers == s.providers[h.slot - 1 := t.providers[h.slot - 1]]
    && t.providers[h.slot - 1] == s.providers[h.slot - 1].(failed := true, eligible := false, exclusion := Unhealthy,
                                                        facts := t.providers[h.slot - 1].facts)
    && t == s.(chunks := t.chunks, providers := t.providers, valid := Invalidate(s.valid, owned),
               lastGeneration := s.lastGeneration + |owned|, lastTransition := s.lastTransition + 1,
               assignedCount := t.assignedCount, usableCount := t.usableCount, mappingClaims := t.mappingClaims,
               evictionClaims := t.evictionClaims,
               activeClaim := if open != 0 then NO_CLAIM else s.activeClaim,
               endedClaim := if open != 0 then s.activeClaim else s.endedClaim,
               endedAction := if open != 0 then FailureTerminal else s.endedAction)
    && t.assignedCount == |AssignedSet(s.chunks) - owned| && t.usableCount == |MappedSet(s.chunks) - owned|
    && t.mappingClaims == |MappingSet(s.chunks) - owned| && t.evictionClaims == |EvictionHeads(s.chunks) - owned|
  }

  lemma FailSizes(s: State, h: Handle)
    requires Inv(s)
    ensures var owned := OwnedBy(s.chunks, h);
      && s.assignedCount - |owned * AssignedSet(s.chunks)| == |AssignedSet(s.chunks) - owned|
      && s.usableCount - |owned * MappedSet(s.chunks)| == |MappedSet(s.chunks) - owned|
      && s.mappingClaims - |owned * MappingHeads(s.chunks)| == |MappingSet(s.chunks) - owned|
      && s.evictionClaims - |owned * EvictionHeads(s.chunks)| == |EvictionHeads(s.chunks) - owned|
      && MappingHeads(s.chunks) == MappingSet(s.chunks)
  {
    hide OwnedBy, MappingSet, MappedSet, AssignedSet, EvictionHeads, MappingHeads;
    MappingHeadsAll(s);
    var owned := OwnedBy(s.chunks, h);
    CutSize(AssignedSet(s.chunks), owned);
    CutSize(MappedSet(s.chunks), owned);
    CutSize(MappingSet(s.chunks), owned);
    CutSize(EvictionHeads(s.chunks), owned);
  }

  // A failed Provider's open claim is the active one.
  lemma OpenIsOwned(s: State, h: Handle)
    requires Inv(s) && |OwnedBy(s.chunks, h) * MappingSet(s.chunks)| != 0
    ensures ClaimWellFormed(s.activeClaim) && s.activeClaim.provider == h
    ensures MappingSet(s.chunks) <= OwnedBy(s.chunks, h)
  {
    hide Digest;
    var i := Pick(OwnedBy(s.chunks, h) * MappingSet(s.chunks));
    assert ChunkOk(s, i);
  }

  // The failure call is refused for exhaustion exactly when a counter is at its limit.
  lemma FailExhausted(s: State, h: Handle)
    requires Inv(s) && LiveSlot(s, h)
    ensures FailProvider(s, h).1.FailureExhausted? <==>
      s.lastGeneration + Debits(s.chunks, h) > ID_MAX || s.lastTransition >= ID_MAX
    ensures FailProvider(s, h).1.FailureApplied? || FailProvider(s, h).1.FailureExhausted?
  {
    hide OwnedBy, MappingSet, MappedSet, AssignedSet, EvictingSet, EvictionHeads, MappingHeads, LeaseSumOf, ChunksOk,
      ClaimsOk, CountersOk, BatchesOk, GrantsUnique, ValidityOk, DebitsOk, ModeOk, ResetMembers;
    LiveIffSlot(s, h);
    FailSizes(s, h);
    if |OwnedBy(s.chunks, h) * MappingSet(s.chunks)| != 0 { OpenIsOwned(s, h); }
  }

  lemma FailShape(s: State, h: Handle)
    requires Inv(s) && FailProvider(s, h).1.FailureApplied?
    ensures Fails(s, FailProvider(s, h).0, h)
  {
    hide OwnedBy, MappingSet, MappedSet, AssignedSet, EvictingSet, EvictionHeads, MappingHeads, LeaseSumOf, ChunksOk,
      ClaimsOk, CountersOk, BatchesOk, GrantsUnique, ValidityOk, DebitsOk, ModeOk, ResetOf, ResetChunks;
    assert s.providers[RosterIndex(s, h).value].handle == h;
    LiveIffSlot(s, h);
    FailSizes(s, h);
    ResetMembersReset(s, OwnedBy(s.chunks, h), false);
  }

  lemma FailCounters(s: State, t: State, h: Handle)
    requires Inv(s) && Fails(s, t, h)
    ensures CountersOk(t)
  {
    hide OwnedBy, MappingSet, MappedSet, AssignedSet, EvictionHeads, LeaseSum, Digest, WholeBatches, Invalidate;
    var owned := OwnedBy(s.chunks, h);
    forall i | 0 <= i < |s.chunks| && s.chunks[i].phase.Evicting? ensures s.chunks[i].evictionClaim != 0 {
      assert ChunkOk(s, i);
    }
    OwnedBatches(s, h);
    ResetSets(s.chunks, t.chunks, owned, t.lastGeneration);
    ResetHeads(s.chunks, t.chunks, owned, t.lastGeneration);
  }

  lemma FailClaims(s: State, t: State, h: Handle)
    requires Inv(s) && Fails(s, t, h)
    ensures ClaimsOk(t)
  {
    hide OwnedBy, MappingSet, MappedSet, AssignedSet, EvictionHeads, LeaseSum, Digest, Invalidate, ChunkOk, DebitsOk,
      BatchesOk, GrantsUnique, ValidityOk, ModeOk;
    var owned := OwnedBy(s.chunks, h);
    ResetSets(s.chunks, t.chunks, owned, t.lastGeneration);
    if |owned * MappingSet(s.chunks)| != 0 {
      OpenIsOwned(s, h);
      var i := OpenClaim(s);
      assert MappingSet(s.chunks) - owned == {};
    } else {
      Apart(owned, MappingSet(s.chunks));
    }
  }

  lemma FailChunk(s: State, t: State, h: Handle, i: int)
    requires Shape(s) && 0 <= i < |s.chunks| && ChunkOk(s, i) && LiveSlot(s, h)
    requires |t.chunks| == |s.chunks| && |t.providers| == |s.providers| && t.epoch == s.epoch
    requires t.providers == s.providers[h.slot - 1 := t.providers[h.slot - 1]] && t.providers[h.slot - 1].failed
    requires t.lastMappingClaim == s.lastMappingClaim && t.lastEvictionClaim == s.lastEvictionClaim
    requires s.lastTransition <= t.lastTransition && s.lastGeneration <= t.lastGeneration
    requires
      if Owns(h, s.chunks[i])
      then t.chunks[i] == ResetChunk(s.chunks[i], t.chunks[i].generation, false).(activity := t.chunks[i].activity)
           && s.chunks[i].generation < t.chunks[i].generation <= t.lastGeneration
      else t.chunks[i] == s.chunks[i] && (s.chunks[i].phase.Mapping? ==> t.activeClaim == s.activeClaim)
    ensures ChunkOk(t, i) && (Kept(s.chunks[i], t.chunks[i]) || Retired(s, t, i))
  {
    hide Digest;
  }

  lemma FailChunks(s: State, t: State, h: Handle)
    requires Inv(s) && Fails(s, t, h)
    ensures Shape(t) && ChunksOk(t) && Evolves(s, t)
  {
    hide OwnedBy, MappingSet, MappedSet, AssignedSet, EvictionHeads, LeaseSum, Digest, Invalidate, DebitsOk, BatchesOk,
      GrantsUnique, ValidityOk, ModeOk, ClaimsOk, CountersOk, Kept, Retired, ChunkOk;
    if |OwnedBy(s.chunks, h) * MappingSet(s.chunks)| != 0 { OpenIsOwned(s, h); }
    forall i | 0 <= i < |t.chunks| ensures ChunkOk(t, i) && (Kept(s.chunks[i], t.chunks[i]) || Retired(s, t, i)) {
      PhaseSets(s.chunks, i);
      OwnedMember(s.chunks, h, i);
      FailChunk(s, t, h, i);
    }
  }

  lemma OwnedMember(cs: seq<Chunk>, h: Handle, i: int)
    requires 0 <= i < |cs|
    ensures i in OwnedBy(cs, h) <==> Owns(h, cs[i])
  {}

  lemma FailProviderKeeps(s: State, h: Handle)
    requires Inv(s)
    ensures var t := FailProvider(s, h).0; Inv(t) && Evolves(s, t)
  {
    hide FailProvider, ChunksOk, ClaimsOk, CountersOk, BatchesOk, GrantsUnique, ValidityOk, ModeOk, DebitsOk, Evolves,
      ResetOf, OwnedBy, MappingSet, MappedSet, AssignedSet, EvictionHeads, Shape;
    var (t, r, _) := FailProvider(s, h);
    if r.FailureApplied? {
      FailShape(s, h);
      var owned := OwnedBy(s.chunks, h);
      FailCounters(s, t, h);
      FailClaims(s, t, h);
      FailChunks(s, t, h);
      ResetTables(s, t, owned);
      ResetValidity(s, t, owned);
      ResetDebits(s, t, owned);
    } else {
      FailRefused(s, h);
      SelfEvolves(s);
    }
  }

  lemma FailRefused(s: State, h: Handle)
    requires !FailProvider(s, h).1.FailureApplied?
    ensures FailProvider(s, h).0 == s
  {}

  // ------------------------------------------------------------------ leases

  // The 64-bit sum and the 32-bit truncation admit exactly the requests that lie inside one existing chunk.
  lemma RangeExact(s: State, r: Request)
    requires 0 < |s.chunks| <= MAX_CHUNKS
    ensures RangeAdmitted(s, r) <==>
      && r.bytes > 0 && r.bytes % SECTOR_BYTES == 0
      && ChunkOf(r.sector) < |s.chunks|
      && r.sector % SECTORS_PER_CHUNK + r.bytes / SECTOR_BYTES <= SECTORS_PER_CHUNK
    ensures RangeAdmitted(s, r) ==>
      && (r.sector / SECTORS_PER_CHUNK) % U32_SIZE == ChunkOf(r.sector)
      && forall x :: x in Range(r.sector, r.bytes / SECTOR_BYTES) ==> ChunkOf(x) == ChunkOf(r.sector)
  {
    var count := r.bytes / SECTOR_BYTES;
    var first, last := r.sector / SECTORS_PER_CHUNK, (r.sector + count - 1) / SECTORS_PER_CHUNK;
    assert r.bytes > 0 && r.bytes % SECTOR_BYTES == 0 ==> count >= 1;
  }

  // The bytes a lease may touch lie inside the granted gibibyte and below two to the sixty-fourth.
  lemma TransportInsideGrant(s: State, home: nat, storage: Lease, r: Request)
    requires Inv(s) && AcquireLease(s, home, storage, r).2.Ok?
    ensures var t := AcquireLease(s, home, storage, r).3;
      && t.chunk < |s.chunks| && s.chunks[t.chunk].phase.Mapped? && t.provider == s.chunks[t.chunk].provider
      && s.chunks[t.chunk].address <= t.address
      && t.address + r.bytes <= s.chunks[t.chunk].address + CHUNK_BYTES <= ID_MAX + 1
  {
    RangeExact(s, r);
    assert ChunkOk(s, ChunkOf(r.sector));
  }

  lemma AcquireKeeps(s: State, home: nat, storage: Lease, r: Request)
    requires Inv(s)
    ensures Inv(AcquireLease(s, home, storage, r).0)
  {
    hide ChunksOk, ClaimsOk, BatchesOk, GrantsUnique, DebitsOk, ModeOk, LeaseSum;
    var (t, _, status, _) := AcquireLease(s, home, storage, r);
    if status.Ok? {
      var i := (r.sector / SECTORS_PER_CHUNK) % U32_SIZE;
      LeaseSumUpdate(s.chunks, i, t.chunks[i]);
      AlikeKeeps(s, t);
    }
  }

  lemma ResolveKeeps(s: State, home: nat, l: Lease, outcome: Outcome)
    requires Inv(s)
    requires CheckLease(s, home, l).Ok? && s.chunks[l.chunk].generation == l.generation && !l.resolved ==>
      IsAssigned(s.chunks[l.chunk])
    ensures Inv(ResolveLease(s, home, l, outcome).0)
  {
    hide ChunksOk, ClaimsOk, BatchesOk, GrantsUnique, DebitsOk, ModeOk, LeaseSum;
    var (t, _, status, _) := ResolveLease(s, home, l, outcome);
    if status.Ok? {
      assert forall x :: x in Range(l.sector, l.count) ==> ChunkOf(x) == l.chunk;
      AlikeKeeps(s, t);
    } else {
      QuietKeeps(s, t);
    }
  }

  lemma LeaseChecked(s: State, home: nat, l: Lease)
    ensures CheckLease(s, home, l).Ok? ==> l.Lease? && l.chunk < |s.chunks|
  {}

  lemma ReleaseKeeps(s: State, home: nat, l: Lease)
    requires Inv(s)
    ensures Inv(ReleaseLease(s, home, l).0)
  {
    hide ChunksOk, ClaimsOk, BatchesOk, GrantsUnique, DebitsOk, ModeOk, LeaseSum, MappingSet, AssignedSet, MappedSet, EvictingSet,
      EvictionHeads, CheckLease;
    assert CheckLease(s, home, l).Ok? ==> l.Lease? && l.chunk < |s.chunks| by { LeaseChecked(s, home, l); }
    var (t, _, status) := ReleaseLease(s, home, l);
    if status.Ok? {
      LeaseSumUpdate(s.chunks, l.chunk, t.chunks[l.chunk]);
      AlikeKeeps(s, t);
    } else {
      QuietKeeps(s, t);
    }
  }
}
