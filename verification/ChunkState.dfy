/**
 The Remote Chunk module of the block device: chunks, Provider epochs, mapping
 and eviction claims, I/O leases, sector validity and the counters kept beside
 them. Every public entry runs under one lock, so each is one function from
 state to state here; the class in ChunkModule.dfy updates in place and is
 proved against these functions.
 */
module ChunkState {
  import opened Options
  import opened SectorBitmap

  const ID_MAX: nat := 0xFFFF_FFFF_FFFF_FFFF
  const U32_MAX: nat := 0xFFFF_FFFF
  const U32_SIZE: nat := 0x1_0000_0000
  const U64_SIZE: nat := 0x1_0000_0000_0000_0000
  const MAX_CHUNKS: nat := 128
  const MAX_PROVIDERS: nat := 64
  const WEIGHT_MAX: nat := 1000
  const HOT_WEIGHT_MAX: nat := 1000000
  const ACTIVITY_MAX: nat := 0x7FFF_FFFF_FFFF_FFFF
  const SECTORS_PER_CHUNK: nat := 2097152
  const SECTOR_BYTES: nat := 512
  const CHUNK_BYTES: nat := 1073741824
  const DIGEST_OFFSET: nat := 1469598103934665603
  const DIGEST_PRIME: nat := 1099511628211

  type U32 = n: nat | n <= U32_MAX witness 0

  // ------------------------------------------------------------- data model

  datatype Mode = Backed | RemoteOnly

  // One Provider connection epoch; the zero handle names nothing.
  datatype Handle = Handle(epoch: nat, slot: nat)
  const NO_PROVIDER := Handle(0, 0)

  datatype Phase = Unmapped | Mapping | Mapped | Evicting

  datatype Chunk = Chunk(
    phase: Phase, provider: Handle, providerChunk: nat, address: nat, key: nat, activity: nat,
    generation: nat, mappingClaim: nat, evictionClaim: nat, transition: nat, leases: nat)

  const FRESH_CHUNK := Chunk(Unmapped, NO_PROVIDER, 0, 0, 0, 0, 0, 0, 0, 0, 0)

  datatype Exclusion =
    NotExcluded | Unhealthy | WrongIdentity | WrongVersion | NoCapability | WrongPool | WrongRail | ZeroCapacity

  datatype Observation = Observation(sequence: nat, available: U32, exclusion: Exclusion, eligible: bool)

  datatype FailureFacts = FailureFacts(
    affected: nat, assignedCount: nat, usableCount: nat, mapping: nat, evicting: nat, leases: nat)
  const NO_FACTS := FailureFacts(0, 0, 0, 0, 0, 0)

  datatype Provider = Provider(
    handle: Handle, weight: nat, reported: U32, observedAssigned: nat, observedDebits: nat, sequence: nat,
    exclusion: Exclusion, eligible: bool, observed: bool, failed: bool, facts: FailureFacts)

  datatype HotPolicy = HotPolicy(threshold: nat, readWeight: nat, writeWeight: nat)

  // Claims are caller-held values; `tagged` stands for the magic number.
  datatype MappingClaim = MappingClaim(
    tagged: bool, epoch: nat, provider: Handle, id: nat, transition: nat, digest: nat, count: nat, debit: nat)
  const NO_CLAIM := MappingClaim(false, 0, NO_PROVIDER, 0, 0, 0, 0, 0)

  datatype EvictionClaim = EvictionClaim(
    tagged: bool, epoch: nat, provider: Handle, id: nat, transition: nat, digest: nat, count: nat)

  datatype Terminal = NoTerminal | CommitTerminal | AbortTerminal | FailureTerminal

  datatype InvariantEvent =
    NoInvariant | ReleaseBeforeResolve | DuplicateResolve | DuplicateRelease | FinishActiveLeases
    | DuplicateQuiesce | DestroyActive

  datatype State = State(
    mode: Mode, chunks: seq<Chunk>, providers: seq<Provider>, valid: set<int>,
    sampleSize: nat, hot: HotPolicy, epoch: nat,
    lastMappingClaim: nat, lastEvictionClaim: nat, lastTransition: nat, lastGeneration: nat, lastLease: nat,
    invariants: nat, latestInvariant: InvariantEvent,
    activeClaim: MappingClaim, endedClaim: MappingClaim, endedAction: Terminal,
    mappingClaims: nat, evictionClaims: nat, leases: nat, assignedCount: nat, usableCount: nat, quiescing: bool,
    waits: nat)

  // ------------------------------------------------ sets of chunks by phase

  predicate IsAssigned(c: Chunk) { c.phase.Mapped? || c.phase.Evicting? }
  predicate Owns(h: Handle, c: Chunk) { !c.phase.Unmapped? && c.provider == h }

  function MappingSet(cs: seq<Chunk>): set<int> { set i | 0 <= i < |cs| && cs[i].phase.Mapping? }
  function MappedSet(cs: seq<Chunk>): set<int> { set i | 0 <= i < |cs| && cs[i].phase.Mapped? }
  function EvictingSet(cs: seq<Chunk>): set<int> { set i | 0 <= i < |cs| && cs[i].phase.Evicting? }
  function AssignedSet(cs: seq<Chunk>): set<int> { set i | 0 <= i < |cs| && IsAssigned(cs[i]) }
  function OwnedBy(cs: seq<Chunk>, h: Handle): set<int> { set i | 0 <= i < |cs| && Owns(h, cs[i]) }
  function ClaimedBy(cs: seq<Chunk>, id: nat): set<int> { set i | 0 <= i < |cs| && cs[i].mappingClaim == id }
  function EvictedBy(cs: seq<Chunk>, id: nat): set<int> { set i | 0 <= i < |cs| && cs[i].evictionClaim == id }

  // The first chunk of each mapping or eviction batch stands for the batch.
  predicate HeadsMapping(cs: seq<Chunk>, i: int)
    requires 0 <= i < |cs|
  {
    forall j :: 0 <= j < i ==> cs[j].mappingClaim != cs[i].mappingClaim
  }

  predicate HeadsEviction(cs: seq<Chunk>, i: int)
    requires 0 <= i < |cs|
  {
    forall j :: 0 <= j < i ==> cs[j].evictionClaim != cs[i].evictionClaim
  }

  function MappingHeads(cs: seq<Chunk>): set<int> {
    set i | 0 <= i < |cs| && cs[i].phase.Mapping? && HeadsMapping(cs, i)
  }

  function EvictionHeads(cs: seq<Chunk>): set<int> {
    set i | 0 <= i < |cs| && cs[i].phase.Evicting? && HeadsEviction(cs, i)
  }

  function LeaseSum(cs: seq<Chunk>): nat {
    if cs == [] then 0 else LeaseSum(cs[..|cs| - 1]) + cs[|cs| - 1].leases
  }

  function LeaseSumOf(cs: seq<Chunk>, h: Handle): nat {
    if cs == [] then 0
    else LeaseSumOf(cs[..|cs| - 1], h) + if Owns(h, cs[|cs| - 1]) then cs[|cs| - 1].leases else 0
  }

  // --------------------------------------------------------------- providers

  predicate HandleWellFormed(h: Handle) { h.epoch != 0 && h.slot != 0 }

  function RosterFrom(ps: seq<Provider>, h: Handle, i: nat): (r: Option<nat>)
    requires i <= |ps|
    ensures r.Some? ==> i <= r.value < |ps| && ps[r.value].handle == h
    ensures r.None? ==> forall j :: i <= j < |ps| ==> ps[j].handle != h
    decreases |ps| - i
  {
    if i == |ps| then None else if ps[i].handle == h then Some(i) else RosterFrom(ps, h, i + 1)
  }

  function RosterIndex(s: State, h: Handle): (r: Option<nat>)
    ensures r.Some? ==> r.value < |s.providers| && s.providers[r.value].handle == h
    ensures r.None? ==> forall j :: 0 <= j < |s.providers| ==> s.providers[j].handle != h
  {
    RosterFrom(s.providers, h, 0)
  }

  predicate Live(s: State, h: Handle) {
    RosterIndex(s, h).Some? && !s.providers[RosterIndex(s, h).value].failed
  }

  // Unsigned 32-bit arithmetic, written as the source writes it.
  function Reconcile(reported: nat, observed: nat, current: nat): nat {
    if current >= observed then
      var taken := current - observed;
      if reported > taken then reported - taken else 0
    else if reported > U32_MAX - (observed - current) then U32_MAX
    else ((reported + observed) % U32_SIZE - current) % U32_SIZE
  }

  function Debits(cs: seq<Chunk>, h: Handle): nat { |OwnedBy(cs, h)| }

  function AssignedBy(cs: seq<Chunk>, h: Handle): set<int> {
    set i | 0 <= i < |cs| && IsAssigned(cs[i]) && cs[i].provider == h
  }

  function AssignedTo(cs: seq<Chunk>, h: Handle): nat { |AssignedBy(cs, h)| }

  function Available(s: State, i: nat): nat
    requires i < |s.providers|
  {
    var p := s.providers[i];
    if p.failed || !p.observed || !p.eligible then 0
    else Reconcile(p.reported, p.observedDebits, Debits(s.chunks, p.handle))
  }

  predicate ObservationValid(o: Observation) {
    if o.eligible then o.available > 0 && o.exclusion.NotExcluded?
    else !o.exclusion.NotExcluded? && (o.exclusion.ZeroCapacity? ==> o.available == 0)
  }

  datatype ObserveResult = Applied | StaleObservation | RepeatObservation | ConflictObservation | InvalidObservation
    | StaleEpoch | ObserveShutdown

  function Observe(s: State, h: Handle, o: Observation): (State, ObserveResult) {
    if !HandleWellFormed(h) || !ObservationValid(o) then (s, InvalidObservation)
    else if s.quiescing then (s, ObserveShutdown)
    else if !Live(s, h) then (s, StaleEpoch)
    else
      var i := RosterIndex(s, h).value;
      var p := s.providers[i];
      if p.observed && o.sequence < p.sequence then (s, StaleObservation)
      else if p.observed && o.sequence == p.sequence then
        (s, if p.reported == o.available && p.exclusion == o.exclusion && p.eligible == o.eligible
            then RepeatObservation else ConflictObservation)
      else
        var q := p.(reported := o.available, observedAssigned := AssignedTo(s.chunks, h),
                    observedDebits := Debits(s.chunks, h), sequence := o.sequence,
                    exclusion := o.exclusion, eligible := o.eligible, observed := true);
        (s.(providers := s.providers[i := q]), Applied)
  }

  // ------------------------------------------------------------ hot activity

  predicate HotPolicyValid(p: HotPolicy) {
    && 0 < p.threshold <= ACTIVITY_MAX
    && 0 < p.readWeight <= HOT_WEIGHT_MAX
    && 0 < p.writeWeight <= HOT_WEIGHT_MAX
  }

  function SetHotPolicy(s: State, p: HotPolicy): State {
    if !HotPolicyValid(p) || s.quiescing then s else s.(hot := p)
  }

  function Warm(c: Chunk, weight: nat): Chunk {
    c.(activity := if c.activity + weight > ACTIVITY_MAX then ACTIVITY_MAX else c.activity + weight)
  }

  function ActivityStatus(s: State, start: nat, count: nat): Status {
    if count == 0 then EInval
    else if start >= |s.chunks| || count > |s.chunks| - start then ERange
    else if s.quiescing then EShutdown
    else if !s.mode.Backed? then ENotSupported
    else Ok
  }

  function NoteActivity(s: State, start: nat, count: nat, write: bool): State {
    if ActivityStatus(s, start, count) != Ok then s
    else
      var weight := if write then s.hot.writeWeight else s.hot.readWeight;
      s.(chunks := seq(|s.chunks|, i requires 0 <= i < |s.chunks| =>
           if start <= i < start + count then Warm(s.chunks[i], weight) else s.chunks[i]))
  }

  // --------------------------------------------------------------- digests

  function Xor(a: nat, b: nat): nat {
    if a == 0 then b else (a + b) % 2 + 2 * Xor(a / 2, b / 2)
  }

  // The running digest of the selected chunk numbers, modulo two to the sixty-fourth.
  function Digest(selected: seq<bool>): nat {
    if selected == [] then DIGEST_OFFSET
    else
      var d := Digest(selected[..|selected| - 1]);
      if selected[|selected| - 1] then Xor(d, |selected|) * DIGEST_PRIME % U64_SIZE else d
  }

  function Selection(n: nat, chosen: set<int>): seq<bool> { seq(n, i => i in chosen) }

  // --------------------------------------------------------------- placement

  function Eligible(s: State, n: nat): (r: seq<int>)
    requires n <= |s.providers|
    ensures Indices(s, r)
  {
    if n == 0 then []
    else Eligible(s, n - 1) + if Available(s, n - 1) > 0 then [n - 1] else []
  }

  function Aggregate(s: State, n: nat): nat
    requires n <= |s.providers|
  {
    if n == 0 then 0 else Aggregate(s, n - 1) + Available(s, n - 1)
  }

  predicate SomePending(s: State) {
    exists i :: 0 <= i < |s.providers| && !s.providers[i].failed && !s.providers[i].observed
  }

  // Indices into the Provider roster.
  ghost predicate Indices(s: State, candidates: seq<int>) {
    forall k :: 0 <= k < |candidates| ==> 0 <= candidates[k] < |s.providers|
  }

  function TotalWeight(s: State, candidates: seq<int>): nat
    requires Indices(s, candidates)
  {
    if candidates == [] then 0
    else TotalWeight(s, candidates[..|candidates| - 1]) + s.providers[candidates[|candidates| - 1]].weight
  }

  // The first position whose cumulative weight exceeds the pick, or zero.
  function Locate(s: State, candidates: seq<int>, pick: nat, k: nat): (r: nat)
    requires Indices(s, candidates) && k <= |candidates|
    ensures candidates != [] ==> r < |candidates|
    decreases |candidates| - k
  {
    if k == |candidates| then 0
    else if pick < TotalWeight(s, candidates[..k + 1]) then k
    else Locate(s, candidates, pick, k + 1)
  }

  // Removal moves the last candidate into the freed position.
  function SwapOut(candidates: seq<int>, k: nat): seq<int>
    requires k < |candidates|
  {
    candidates[k := candidates[|candidates| - 1]][..|candidates| - 1]
  }

  function Draw(draws: seq<nat>, round: nat, limit: nat): nat {
    if limit == 0 || round >= |draws| then 0 else draws[round] % limit
  }

  // Weighted sampling without replacement; `draws` are the raw random numbers.
  function Sample(s: State, candidates: seq<int>, size: nat, draws: seq<nat>, round: nat): (r: seq<int>)
    requires Indices(s, candidates) && size <= |candidates|
    ensures |r| == size && Indices(s, r)
    decreases size
  {
    if size == 0 then []
    else
      var k := Locate(s, candidates, Draw(draws, round, TotalWeight(s, candidates)), 0);
      [candidates[k]] + Sample(s, SwapOut(candidates, k), size - 1, draws, round + 1)
  }

  // More available wins; equal availability goes to the lower roster index.
  predicate Better(s: State, a: int, b: int)
    requires 0 <= a < |s.providers| && 0 <= b < |s.providers|
  {
    Available(s, a) > Available(s, b) || (Available(s, a) == Available(s, b) && a < b)
  }

  function Best(s: State, samples: seq<int>): (r: int)
    requires samples != [] && Indices(s, samples)
    ensures r in samples
  {
    if |samples| == 1 then samples[0]
    else
      var b := Best(s, samples[..|samples| - 1]);
      var c := samples[|samples| - 1];
      if Better(s, c, b) then c else b
  }

  function Choose(s: State, candidates: seq<int>, draws: seq<nat>): (r: int)
    requires candidates != [] && Indices(s, candidates) && s.sampleSize > 0
    ensures 0 <= r < |s.providers|
  {
    var size := if s.sampleSize > |candidates| then |candidates| else s.sampleSize;
    Best(s, Sample(s, candidates, size, draws, 0))
  }

  // ---------------------------------------------------------- mapping claims

  datatype MappingPool = CommittedPool | OpportunisticPool

  // Remote-Only devices have no other copy, so they ask for memory that is never reclaimed.
  function PoolFor(mode: Mode): MappingPool { if mode.RemoteOnly? then CommittedPool else OpportunisticPool }

  datatype NextResult =
    RequestMapping(provider: Handle, pool: MappingPool, chunk: nat, claim: MappingClaim)
    | NoHotRange | PendingFacts | NoCapacity | InsufficientCapacity | MappingComplete | ClaimActive
    | NextShutdown | NextInvalid

  predicate Wanted(s: State, c: Chunk) {
    c.phase.Unmapped? && (s.mode.RemoteOnly? || c.activity >= s.hot.threshold)
  }

  function FirstWanted(s: State, i: nat): (r: Option<nat>)
    requires i <= |s.chunks|
    ensures r.Some? ==> i <= r.value < |s.chunks| && Wanted(s, s.chunks[r.value])
    ensures r.None? ==> forall j :: i <= j < |s.chunks| ==> !Wanted(s, s.chunks[j])
    decreases |s.chunks| - i
  {
    if i == |s.chunks| then None else if Wanted(s, s.chunks[i]) then Some(i) else FirstWanted(s, i + 1)
  }

  function NewClaim(s: State, h: Handle, chunk: nat): MappingClaim {
    MappingClaim(true, s.epoch, h, s.lastMappingClaim + 1, s.lastTransition + 1,
                 Digest(Selection(|s.chunks|, {chunk})), 1, 1)
  }

  function ClaimOpened(s: State, h: Handle, chunk: nat): State
    requires chunk < |s.chunks|
  {
    var claim := NewClaim(s, h, chunk);
    var c := s.chunks[chunk].(phase := Mapping, provider := h, mappingClaim := claim.id,
                              transition := claim.transition);
    s.(chunks := s.chunks[chunk := c], activeClaim := claim, endedClaim := NO_CLAIM, endedAction := NoTerminal,
       lastMappingClaim := claim.id, lastTransition := claim.transition,
       mappingClaims := s.mappingClaims + 1)
  }

  function CreateClaim(s: State, h: Handle, chunk: nat): (State, NextResult)
    requires chunk < |s.chunks|
  {
    if !Live(s, h) then (s, NextInvalid)
    else if s.mappingClaims != 0 || !s.chunks[chunk].phase.Unmapped? then (s, ClaimActive)
    else if s.lastMappingClaim >= ID_MAX || s.lastTransition >= ID_MAX then (s, NextInvalid)
    else
      (ClaimOpened(s, h, chunk), RequestMapping(h, PoolFor(s.mode), chunk, NewClaim(s, h, chunk)))
  }

  function NextMapping(s: State, draws: seq<nat>): (State, NextResult)
    requires s.sampleSize > 0
  {
    var n := |s.providers|;
    if s.quiescing then (s, NextShutdown)
    else if s.mappingClaims != 0 then (s, ClaimActive)
    else if s.mode.RemoteOnly? && SomePending(s) then (s, PendingFacts)
    else if s.mode.RemoteOnly? && s.usableCount == |s.chunks| then (s, MappingComplete)
    else
      match FirstWanted(s, 0)
      case None => (s, if s.mode.RemoteOnly? then NextInvalid else NoHotRange)
      case Some(chunk) =>
        if s.mode.RemoteOnly? && s.assignedCount == 0 && Aggregate(s, n) < |s.chunks| then (s, InsufficientCapacity)
        else if Eligible(s, n) == [] then (s, if SomePending(s) then PendingFacts else NoCapacity)
        else CreateClaim(s, s.providers[Choose(s, Eligible(s, n), draws)].handle, chunk)
  }

  datatype Grant = Grant(chunk: nat, providerChunk: nat, address: nat, key: nat)

  datatype FinishAction = Commit | Abort

  datatype FinishResult =
    Committed | Aborted | Duplicate | Stale | Conflict | Invalid | InvalidGrant | Exhausted | Shutdown

  predicate ClaimWellFormed(c: MappingClaim) {
    && c.tagged && c.epoch != 0 && HandleWellFormed(c.provider)
    && c.id != 0 && c.transition != 0 && c.count != 0 && c.debit == c.count
  }

  predicate ClaimIsActive(s: State, c: MappingClaim) {
    && c == s.activeClaim
    && Live(s, c.provider)
    && c.count <= |s.chunks|
    && (forall i :: i in ClaimedBy(s.chunks, c.id) ==>
          s.chunks[i].phase.Mapping? && s.chunks[i].transition == c.transition && s.chunks[i].provider == c.provider)
    && |ClaimedBy(s.chunks, c.id)| == c.count
    && Digest(Selection(|s.chunks|, ClaimedBy(s.chunks, c.id))) == c.digest
  }

  function GrantedChunks(grants: seq<Grant>): set<int> {
    set k | 0 <= k < |grants| :: grants[k].chunk
  }

  // One gibibyte from the granted address still fits below two to the sixty-fourth.
  predicate GrantUsable(s: State, g: Grant) {
    && g.chunk < |s.chunks| && g.address != 0 && g.key != 0
    && g.address <= ID_MAX - (SECTORS_PER_CHUNK * SECTOR_BYTES - 1)
  }

  predicate GrantsShaped(s: State, c: MappingClaim, grants: seq<Grant>) {
    && |grants| == c.count && |grants| == c.debit
    && (forall k :: 0 <= k < |grants| ==> GrantUsable(s, grants[k]))
    && (forall j, k :: 0 <= j < k < |grants| ==>
          grants[j].chunk != grants[k].chunk && grants[j].providerChunk != grants[k].providerChunk)
    && Digest(Selection(|s.chunks|, GrantedChunks(grants))) == c.digest
  }

  predicate GrantAvailable(s: State, c: MappingClaim, g: Grant)
    requires g.chunk < |s.chunks|
  {
    var chunk := s.chunks[g.chunk];
    && chunk.phase.Mapping? && chunk.mappingClaim == c.id
    && chunk.transition == c.transition && chunk.provider == c.provider
    && forall i :: 0 <= i < |s.chunks| && IsAssigned(s.chunks[i]) && s.chunks[i].provider == c.provider ==>
         s.chunks[i].providerChunk != g.providerChunk
  }

  predicate GrantMatches(s: State, c: MappingClaim, g: Grant)
    requires g.chunk < |s.chunks|
  {
    var chunk := s.chunks[g.chunk];
    chunk.phase.Mapped? && chunk.provider == c.provider && chunk.providerChunk == g.providerChunk
    && chunk.address == g.address && chunk.key == g.key
  }

  function Unclaim(cs: seq<Chunk>, id: nat): seq<Chunk> {
    seq(|cs|, i requires 0 <= i < |cs| =>
      if cs[i].mappingClaim == id
      then cs[i].(provider := NO_PROVIDER, mappingClaim := 0, transition := 0, phase := Unmapped)
      else cs[i])
  }

  function Grown(c: Chunk, g: Grant, generation: nat): Chunk {
    c.(providerChunk := g.providerChunk, address := g.address, key := g.key, generation := generation,
       mappingClaim := 0, transition := 0, phase := Mapped)
  }

  function ChunkSectors(i: nat): set<int> { Range(i * SECTORS_PER_CHUNK, SECTORS_PER_CHUNK) }

  function ApplyGrants(s: State, grants: seq<Grant>): State
    requires forall k :: 0 <= k < |grants| ==> grants[k].chunk < |s.chunks|
  {
    if grants == [] then s
    else
      var g := grants[|grants| - 1];
      var t := ApplyGrants(s, grants[..|grants| - 1]);
      if g.chunk < |t.chunks| then
        t.(chunks := t.chunks[g.chunk := Grown(t.chunks[g.chunk], g, t.lastGeneration + 1)],
           lastGeneration := t.lastGeneration + 1, valid := t.valid - ChunkSectors(g.chunk))
      else t
  }

  function EndClaim(s: State, c: MappingClaim, action: Terminal): State {
    s.(endedClaim := c, endedAction := action, activeClaim := NO_CLAIM)
  }

  function FinishMapping(s: State, c: MappingClaim, action: FinishAction, h: Handle, grants: seq<Grant>)
    : (State, FinishResult)
  {
    if !HandleWellFormed(h) || !ClaimWellFormed(c) || c.count > |s.chunks| || (action.Abort? && grants != []) then
      (s, Invalid)
    else if c.epoch != s.epoch || !Live(s, c.provider) then (s, Stale)
    else if c == s.endedClaim then
      if h != c.provider then (s, if Live(s, h) then Conflict else Stale)
      else if action.Commit? && !GrantsShaped(s, c, grants) then (s, InvalidGrant)
      else if (if action.Commit? then CommitTerminal else AbortTerminal) != s.endedAction
           || (action.Commit? && exists k :: 0 <= k < |grants| && !GrantMatches(s, c, grants[k])) then (s, Conflict)
      else (s, Duplicate)
    else if c.id > s.lastMappingClaim || c.transition > s.lastTransition then (s, Invalid)
    else if !ClaimIsActive(s, c) then (s, Stale)
    else if h != c.provider then (s, if Live(s, h) then Conflict else Stale)
    else if action.Commit? && !GrantsShaped(s, c, grants) then (s, InvalidGrant)
    else if action.Commit? && s.quiescing then (s, Shutdown)
    else if s.mappingClaims == 0 then (s, Invalid)
    else if action.Abort? then
      (EndClaim(s.(chunks := Unclaim(s.chunks, c.id), mappingClaims := s.mappingClaims - 1), c, AbortTerminal), Aborted)
    else if exists k :: 0 <= k < |grants| && !GrantAvailable(s, c, grants[k]) then (s, InvalidGrant)
    else if s.lastGeneration + |grants| > ID_MAX || s.assignedCount + c.debit > U32_MAX || s.usableCount + c.debit > U32_MAX then
      (s, Exhausted)
    else
      var t := ApplyGrants(s, grants);
      (EndClaim(t.(assignedCount := s.assignedCount + c.debit, usableCount := s.usableCount + c.debit,
                   mappingClaims := s.mappingClaims - 1), c, CommitTerminal), Committed)
  }

  // --------------------------------------------------------------- evictions

  datatype Status = Ok | EInval | EStale | EBusy | ENoEnt | EOverflow | EShutdown | ENotSupported | ERange | ENxio
    | ENoData | EAlready | EPerm | EIo | ETimedOut

  function FindChunk(s: State, h: Handle, id: nat, i: nat): (r: Option<nat>)
    requires i <= |s.chunks|
    ensures r.Some? ==> i <= r.value < |s.chunks| && s.chunks[r.value].phase.Mapped?
                        && s.chunks[r.value].providerChunk == id && s.chunks[r.value].provider == h
    decreases |s.chunks| - i
  {
    if i == |s.chunks| then None
    else if s.chunks[i].phase.Mapped? && s.chunks[i].providerChunk == id && s.chunks[i].provider == h then Some(i)
    else FindChunk(s, h, id, i + 1)
  }

  function CheckEviction(s: State, c: EvictionClaim): Status {
    if !c.tagged || c.id == 0 || c.transition == 0 || c.count == 0 then EInval
    else if c.epoch != s.epoch || !Live(s, c.provider) then EStale
    else if c.count > |s.chunks| then EInval
    else if exists i :: i in EvictedBy(s.chunks, c.id) &&
              !(s.chunks[i].phase.Evicting? && s.chunks[i].transition == c.transition
                && s.chunks[i].provider == c.provider) then EStale
    else if |EvictedBy(s.chunks, c.id)| != c.count
         || Digest(Selection(|s.chunks|, EvictedBy(s.chunks, c.id))) != c.digest then EStale
    else Ok
  }

  // The chunks a batch selects, or the status of its first unusable entry.
  function SelectBatch(s: State, h: Handle, ids: seq<nat>, n: nat): (set<int>, Status)
    requires n <= |ids|
  {
    if n == 0 then ({}, Ok)
    else
      var (chosen, status) := SelectBatch(s, h, ids, n - 1);
      if status != Ok then (chosen, status)
      else
        match FindChunk(s, h, ids[n - 1], 0)
        case None => (chosen, ENoEnt)
        case Some(i) => if i in chosen then (chosen, EInval) else (chosen + {i}, Ok)
  }

  function Close(cs: seq<Chunk>, chosen: set<int>, id: nat, transition: nat): (r: seq<Chunk>)
    ensures |r| == |cs|
  {
    seq(|cs|, i requires 0 <= i < |cs| =>
      if i in chosen then cs[i].(phase := Evicting, evictionClaim := id, transition := transition) else cs[i])
  }

  function BeginEviction(s: State, h: Handle, ids: seq<nat>, prior: EvictionClaim): (State, Status, EvictionClaim) {
    if ids == [] || |ids| > |s.chunks| then (s, EInval, prior)
    else if !s.mode.Backed? then (s, ENotSupported, prior)
    else if s.quiescing then (s, EShutdown, prior)
    else if !Live(s, h) then (s, EStale, prior)
    else if CheckEviction(s, prior).Ok? then (s, EBusy, prior)
    else
      var (chosen, status) := SelectBatch(s, h, ids, |ids|);
      if status != Ok then (s, status, prior)
      else if s.lastEvictionClaim >= ID_MAX || s.lastTransition >= ID_MAX || s.usableCount < |ids|
           || s.evictionClaims >= U32_MAX then (s, EOverflow, prior)
      else
        var id := s.lastEvictionClaim + 1;
        var transition := s.lastTransition + 1;
        (s.(chunks := Close(s.chunks, chosen, id, transition), lastEvictionClaim := id, lastTransition := transition,
            endedClaim := NO_CLAIM, endedAction := NoTerminal,
            usableCount := s.usableCount - |ids|, evictionClaims := s.evictionClaims + 1),
         Ok,
         EvictionClaim(true, s.epoch, h, id, transition, Digest(Selection(|s.chunks|, chosen)), |ids|))
  }

  predicate Drained(s: State, id: nat) {
    forall i :: i in EvictedBy(s.chunks, id) ==> s.chunks[i].leases == 0
  }

  // A thread that waits for an eviction to drain is counted from here until it leaves.
  function EnterWait(s: State, c: EvictionClaim, deadline: nat): (State, Status) {
    if deadline == 0 then (s, EInval)
    else if CheckEviction(s, c) != Ok then (s, CheckEviction(s, c))
    else if s.waits >= U32_MAX then (s, EOverflow)
    else (s.(waits := s.waits + 1), Ok)
  }

  // One look of a waiting thread, with the clock's reading if there is one. No status means that it goes on waiting.
  function PollWait(s: State, c: EvictionClaim, now: Option<nat>, deadline: nat): (State, Option<Status>) {
    var left := s.(waits := if s.waits == 0 then 0 else s.waits - 1);
    if CheckEviction(s, c) != Ok then (left, Some(CheckEviction(s, c)))
    else if Drained(s, c.id) then (left, Some(Ok))
    else if now.None? then (left, Some(EIo))
    else if now.value >= deadline then (left, Some(ETimedOut))
    else (s, None)
  }

  function Note(s: State, event: InvariantEvent): State {
    s.(invariants := if s.invariants >= ID_MAX then s.invariants else s.invariants + 1, latestInvariant := event)
  }

  function ResetChunk(c: Chunk, generation: nat, cool: bool): Chunk {
    c.(generation := generation, provider := NO_PROVIDER, providerChunk := 0, address := 0, key := 0,
       mappingClaim := 0, evictionClaim := 0, transition := 0, activity := if cool then 0 else c.activity,
       phase := Unmapped)
  }

  // How many members are at most `i`: the order in which the reset loop numbers them.
  function Rank(members: set<int>, i: int): nat { |set j | j in members && j <= i| }

  function ResetChunks(cs: seq<Chunk>, members: set<int>, generation: nat, cool: bool): seq<Chunk> {
    seq(|cs|, i requires 0 <= i < |cs| =>
      if i in members then ResetChunk(cs[i], generation + Rank(members, i), cool) else cs[i])
  }

  function ChunkOf(sector: int): int { sector / SECTORS_PER_CHUNK }

  function Invalidate(valid: set<int>, members: set<int>): set<int> {
    set x | x in valid && ChunkOf(x) !in members
  }

  function ResetMembers(s: State, members: set<int>, cool: bool): State {
    s.(chunks := ResetChunks(s.chunks, members, s.lastGeneration, cool),
       lastGeneration := s.lastGeneration + |members|,
       valid := Invalidate(s.valid, members))
  }

  function FinishEviction(s: State, c: EvictionClaim): (State, Status) {
    var status := CheckEviction(s, c);
    if status != Ok then (s, status)
    else if !Drained(s, c.id) then (Note(s, FinishActiveLeases), EBusy)
    else if s.lastGeneration + c.count > ID_MAX || s.assignedCount < c.count || s.evictionClaims == 0 then (s, EOverflow)
    else
      var t := ResetMembers(s, EvictedBy(s.chunks, c.id), true);
      (t.(assignedCount := s.assignedCount - c.count, evictionClaims := s.evictionClaims - 1), Ok)
  }

  // -------------------------------------------------------- Provider failure

  datatype FailureResult = FailureApplied | FailureDuplicate | FailureStaleEpoch | FailureInvalid | FailureExhausted

  function FactsFor(s: State, h: Handle): FailureFacts {
    var owned := OwnedBy(s.chunks, h);
    FailureFacts(|owned|, |owned * AssignedSet(s.chunks)|, |owned * MappedSet(s.chunks)|,
                 |owned * MappingSet(s.chunks)|, |owned * EvictingSet(s.chunks)|, LeaseSumOf(s.chunks, h))
  }

  function FailProvider(s: State, h: Handle): (State, FailureResult, FailureFacts) {
    if !HandleWellFormed(h) then (s, FailureInvalid, NO_FACTS)
    else
      match RosterIndex(s, h)
      case None => (s, FailureStaleEpoch, NO_FACTS)
      case Some(p) =>
        if s.providers[p].failed then (s, FailureDuplicate, s.providers[p].facts)
        else
          var owned := OwnedBy(s.chunks, h);
          var facts := FactsFor(s, h);
          var mapping := |owned * MappingHeads(s.chunks)|;
          var evicting := |owned * EvictionHeads(s.chunks)|;
          if s.lastGeneration + facts.affected > ID_MAX || s.assignedCount < facts.assignedCount || s.usableCount < facts.usableCount
             || s.mappingClaims < mapping || s.evictionClaims < evicting || s.lastTransition >= ID_MAX
             || (mapping != 0 && (!ClaimWellFormed(s.activeClaim) || s.activeClaim.provider != h)) then
            (s, FailureExhausted, NO_FACTS)
          else
            var t := if mapping != 0 then EndClaim(s, s.activeClaim, FailureTerminal) else s;
            var p' := s.providers[p].(failed := true, eligible := false, exclusion := Unhealthy, facts := facts);
            (ResetMembers(t, owned, false).(
               lastTransition := s.lastTransition + 1, assignedCount := s.assignedCount - facts.assignedCount,
               usableCount := s.usableCount - facts.usableCount, mappingClaims := s.mappingClaims - mapping,
               evictionClaims := s.evictionClaims - evicting, providers := s.providers[p := p']),
             FailureApplied, facts)
  }

  // ------------------------------------------------------------- I/O leases

  datatype Direction = Read | Write

  datatype Request = Request(direction: Direction, sector: nat, bytes: nat)

  // Lease storage is caller-owned; `home` is the address it was acquired at.
  datatype Lease =
    | Blank
    | Foreign
    | Lease(home: nat, epoch: nat, id: nat, generation: nat, sector: nat, count: nat, chunk: nat,
            direction: Direction, resolved: bool, released: bool)

  datatype Transport = NoTransport | Transport(provider: Handle, address: nat, key: nat, providerChunk: nat, chunk: nat)

  // Where a request that starts at a sector finds the chunk's memory.
  function TransportTo(c: Chunk, sector: nat, chunk: nat): Transport {
    Transport(c.provider, c.address + sector % SECTORS_PER_CHUNK * SECTOR_BYTES, c.key, c.providerChunk, chunk)
  }

  // The range check with its 64-bit sum and its truncation to 32 bits.
  predicate RangeFits(chunks: nat, r: Request) {
    var count := r.bytes / SECTOR_BYTES;
    && r.bytes != 0 && r.bytes % SECTOR_BYTES == 0
    && r.sector <= ID_MAX - (count - 1)
    && var last := r.sector + count - 1;
       var chunk := (r.sector / SECTORS_PER_CHUNK) % U32_SIZE;
       chunk < chunks && last / SECTORS_PER_CHUNK == chunk
  }

  predicate RangeAdmitted(s: State, r: Request) { RangeFits(|s.chunks|, r) }

  function AcquireLease(s: State, home: nat, storage: Lease, r: Request): (State, Lease, Status, Transport) {
    if r.bytes == 0 || r.bytes % SECTOR_BYTES != 0 then (s, storage, EInval, NoTransport)
    else if !RangeAdmitted(s, r) then (s, storage, ERange, NoTransport)
    else if s.quiescing then (s, storage, EShutdown, NoTransport)
    else if storage.Foreign? || (storage.Lease? && storage.home != home) then (s, storage, EInval, NoTransport)
    else if storage.Lease? then (s, storage, if storage.released then EAlready else EBusy, NoTransport)
    else
      var count := r.bytes / SECTOR_BYTES;
      var i := (r.sector / SECTORS_PER_CHUNK) % U32_SIZE;
      var c := s.chunks[i];
      if !c.phase.Mapped? then (s, storage, ENxio, NoTransport)
      else if r.direction.Read? && !(Range(r.sector, count) <= s.valid) then (s, storage, ENoData, NoTransport)
      else if s.lastLease >= ID_MAX || s.leases >= U32_MAX || c.leases >= U32_MAX then
        (s, storage, EOverflow, NoTransport)
      else
        (s.(chunks := s.chunks[i := c.(leases := c.leases + 1)], leases := s.leases + 1, lastLease := s.lastLease + 1,
            valid := if r.direction.Write? then s.valid - Range(r.sector, count) else s.valid),
         Lease(home, s.epoch, s.lastLease + 1, c.generation, r.sector, count, i, r.direction, false, false),
         Ok,
         TransportTo(c, r.sector, i))
  }

  function CheckLease(s: State, home: nat, l: Lease): Status {
    if !l.Lease? || l.id == 0 || l.generation == 0 || l.count == 0 || l.home != home then EInval
    else if l.epoch != s.epoch then EStale
    else if l.id > s.lastLease || l.generation > s.lastGeneration || l.chunk >= |s.chunks|
         || l.sector / SECTORS_PER_CHUNK != l.chunk
         || l.count > SECTORS_PER_CHUNK - l.sector % SECTORS_PER_CHUNK || (l.released && !l.resolved) then EInval
    else Ok
  }

  datatype Outcome = Success | Failure | Cancelled | SubmissionFailure
  datatype Resolution = Unresolved | Current | Outdated

  function ResolveLease(s: State, home: nat, l: Lease, outcome: Outcome): (State, Lease, Status, Resolution) {
    var status := CheckLease(s, home, l);
    if status != Ok then (s, l, status, Unresolved)
    else if l.resolved then (Note(s, DuplicateResolve), l, EAlready, Unresolved)
    else
      var current := s.chunks[l.chunk].generation == l.generation;
      var range := Range(l.sector, l.count);
      (if current && l.direction.Write?
       then s.(valid := if outcome.Success? then s.valid + range else s.valid - range) else s,
       l.(resolved := true), Ok, if current then Current else Outdated)
  }

  function ReleaseLease(s: State, home: nat, l: Lease): (State, Lease, Status) {
    var status := CheckLease(s, home, l);
    if status != Ok then (s, l, status)
    else if l.released then (Note(s, DuplicateRelease), l, EAlready)
    else if !l.resolved then (Note(s, ReleaseBeforeResolve), l, EPerm)
    else if s.chunks[l.chunk].leases == 0 || s.leases == 0 then (s, l, EInval)
    else
      var c := s.chunks[l.chunk];
      (s.(chunks := s.chunks[l.chunk := c.(leases := c.leases - 1)], leases := s.leases - 1),
       l.(released := true), Ok)
  }

  // --------------------------------------------------------------- lifetime

  datatype Config = Config(mode: Mode, chunks: nat, hot: HotPolicy, weights: seq<nat>, sampleSize: nat)

  predicate ConfigAccepted(c: Config) {
    && 0 < c.chunks <= MAX_CHUNKS && HotPolicyValid(c.hot)
    && |c.weights| <= MAX_PROVIDERS && 0 < c.sampleSize <= MAX_PROVIDERS
    && (c.mode.RemoteOnly? ==> |c.weights| > 0)
    && (|c.weights| > 0 ==> c.sampleSize <= |c.weights|)
    && forall i :: 0 <= i < |c.weights| ==> 1 <= c.weights[i] <= WEIGHT_MAX
  }

  function FreshProvider(epoch: nat, i: nat, weight: nat): Provider {
    Provider(Handle(epoch, i + 1), weight, 0, 0, 0, 0, NotExcluded, false, false, false, NO_FACTS)
  }

  function Create(c: Config, epoch: nat): State {
    State(c.mode, seq(c.chunks, _ => FRESH_CHUNK),
          seq(|c.weights|, i requires 0 <= i < |c.weights| => FreshProvider(epoch, i, c.weights[i])),
          {}, c.sampleSize, c.hot, epoch, 0, 0, 0, 0, 0, 0, NoInvariant, NO_CLAIM, NO_CLAIM, NoTerminal,
          0, 0, 0, 0, 0, false, 0)
  }

  function Quiesce(s: State): State {
    if s.quiescing then Note(s, DuplicateQuiesce) else s.(quiescing := true)
  }

  // Destroy enters quiesce, then refuses while anything is outstanding.
  function Destroy(s: State): (State, bool) {
    var t := s.(quiescing := true);
    if s.mappingClaims != 0 || s.evictionClaims != 0 || s.waits != 0 || s.leases != 0 then (Note(t, DestroyActive), false)
    else (t, true)
  }

  // The consistency checks of the snapshot, over values derived from the chunks.
  predicate SnapshotConsistent(s: State) {
    && (forall i :: i in AssignedSet(s.chunks) ==> RosterIndex(s, s.chunks[i].provider).Some?)
    && |AssignedSet(s.chunks)| == s.assignedCount
    && |MappedSet(s.chunks)| == s.usableCount
    && LeaseSum(s.chunks) == s.leases
  }

  // ---------------------------------------------------------------- snapshot

  datatype Placement = Placement(provider: Handle, chunk: nat, usable: bool)

  // A Provider as recorded, what it could take by its assigned chunks alone, and its assigned and usable chunks.
  datatype ProviderReport = ProviderReport(provider: Provider, diagnostic: nat, assignedCount: nat, usableCount: nat)

  datatype Tally = Tally(assignedCount: nat, usableCount: nat, leases: nat, mapping: nat, evicting: nat, hot: nat, wanted: nat)

  datatype Snapshot = Snapshot(
    mode: Mode, chunks: nat, tally: Tally, mappingClaims: nat, evictionClaims: nat, invariants: nat,
    latestInvariant: InvariantEvent, quiescing: bool, hot: HotPolicy, sampleSize: nat,
    providers: seq<ProviderReport>, placements: seq<Placement>)

  function UsableSet(cs: seq<Chunk>, h: Handle): set<int> {
    set i | 0 <= i < |cs| && cs[i].phase.Mapped? && cs[i].provider == h
  }
  function UsableOn(cs: seq<Chunk>, h: Handle): nat { |UsableSet(cs, h)| }

  function HotSet(cs: seq<Chunk>, threshold: nat): set<int> { set i | 0 <= i < |cs| && cs[i].activity >= threshold }
  function WantedSet(cs: seq<Chunk>, threshold: nat): set<int> {
    set i | 0 <= i < |cs| && cs[i].activity >= threshold && cs[i].phase.Unmapped?
  }

  function Diagnostic(s: State, i: nat): nat
    requires i < |s.providers|
  {
    var p := s.providers[i];
    if p.failed || !p.observed || !p.eligible then 0
    else Reconcile(p.reported, p.observedAssigned, AssignedTo(s.chunks, p.handle))
  }

  // The assigned chunks in order.
  function Placements(cs: seq<Chunk>): seq<Placement> {
    if cs == [] then []
    else
      var n := |cs| - 1;
      Placements(cs[..n]) + if IsAssigned(cs[n]) then [Placement(cs[n].provider, n, cs[n].phase.Mapped?)] else []
  }

  // The figures are those of the chunk table.
  ghost predicate Tallies(cs: seq<Chunk>, threshold: nat, t: Tally) {
    && t.assignedCount == |AssignedSet(cs)| && t.usableCount == |MappedSet(cs)| && t.leases == LeaseSum(cs)
    && t.mapping == |MappingSet(cs)| && t.evicting == |EvictingSet(cs)|
    && t.hot == |HotSet(cs, threshold)| && t.wanted == |WantedSet(cs, threshold)|
  }

  ghost predicate ReportsProvider(s: State, cs: seq<Chunk>, i: nat, r: ProviderReport)
    requires i < |s.providers|
  {
    && r.provider == s.providers[i] && r.diagnostic == Diagnostic(s, i)
    && r.assignedCount == AssignedTo(cs, s.providers[i].handle) && r.usableCount == UsableOn(cs, s.providers[i].handle)
  }

  // What a snapshot promises: each figure and each list is that of the module.
  ghost predicate Depicts(s: State, snapshot: Snapshot) {
    && snapshot.mode == s.mode && snapshot.chunks == |s.chunks| && Tallies(s.chunks, s.hot.threshold, snapshot.tally)
    && snapshot.mappingClaims == s.mappingClaims && snapshot.evictionClaims == s.evictionClaims
    && snapshot.invariants == s.invariants && snapshot.latestInvariant == s.latestInvariant
    && snapshot.quiescing == s.quiescing && snapshot.hot == s.hot && snapshot.sampleSize == s.sampleSize
    && snapshot.placements == Placements(s.chunks) && |snapshot.providers| == |s.providers|
    && forall i :: 0 <= i < |s.providers| ==> ReportsProvider(s, s.chunks, i, snapshot.providers[i])
  }
}
