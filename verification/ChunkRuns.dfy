/**
 Runs of the Remote Chunk module: any sequence of calls, with lease storage that
 only the module's own calls write. Results over every run follow from one
 invariant over the module and the leases it has issued.
 */
module ChunkRuns {
  import opened Options
  import opened SectorBitmap
  import opened ChunkState
  import opened ChunkInvariant

  // An event that decides the validity of the sectors it covers.
  datatype Touch =
    | Sectors(first: nat, count: nat, good: bool)
    | Chunks(members: set<int>)

  predicate Covers(t: Touch, sector: int) {
    match t
    case Sectors(first, count, _) => first <= sector < first + count
    case Chunks(members) => ChunkOf(sector) in members
  }

  // Whether the last event that covers a sector was a successful resolve.
  predicate LastGood(touches: seq<Touch>, sector: int) {
    if touches == [] then false
    else
      var t := touches[|touches| - 1];
      if Covers(t, sector) then t.Sectors? && t.good else LastGood(touches[..|touches| - 1], sector)
  }

  datatype World = World(
    s: State,
    storage: map<nat, Lease>,    // lease storage by address; absent addresses are blank
    issued: map<nat, Transport>, // the memory each lease was granted on
    touches: seq<Touch>,
    ended: seq<nat>,             // mapping claims in the order they ended
    waiting: seq<EvictionClaim>) // threads that wait for an eviction to drain

  datatype Op =
    | DoObserve(provider: Handle, observation: Observation)
    | DoSetHot(policy: HotPolicy)
    | DoActivity(start: nat, count: nat, write: bool)
    | DoNextMapping(draws: seq<nat>)
    | DoFinishMapping(claim: MappingClaim, action: FinishAction, provider: Handle, grants: seq<Grant>)
    | DoBeginEviction(provider: Handle, ids: seq<nat>, prior: EvictionClaim)
    | DoFinishEviction(eviction: EvictionClaim)
    | DoEnterWait(eviction: EvictionClaim, deadline: nat)
    | DoPollWait(waiter: nat, now: Option<nat>, deadline: nat)
    | DoFail(provider: Handle)
    | DoAcquire(home: nat, request: Request)
    | DoResolve(home: nat, outcome: Outcome)
    | DoRelease(home: nat)
    | DoQuiesce
    | DoDestroy

  function StorageAt(w: World, home: nat): Lease {
    if home in w.storage then w.storage[home] else Blank
  }

  function Start(c: Config, epoch: nat): World {
    World(Create(c, epoch), map[], map[], [], [], [])
  }

  function StepFinishMapping(w: World, c: MappingClaim, action: FinishAction, h: Handle, grants: seq<Grant>): World {
    var (t, r) := FinishMapping(w.s, c, action, h, grants);
    w.(s := t,
       touches := if r.Committed? then w.touches + [Chunks(GrantedChunks(grants))] else w.touches,
       ended := if r.Committed? || r.Aborted? then w.ended + [c.id] else w.ended)
  }

  function StepEnterWait(w: World, c: EvictionClaim, deadline: nat): World {
    var (t, status) := EnterWait(w.s, c, deadline);
    w.(s := t, waiting := if status.Ok? then w.waiting + [c] else w.waiting)
  }

  function StepPollWait(w: World, k: nat, now: Option<nat>, deadline: nat): World {
    if k >= |w.waiting| then w
    else
      var (t, status) := PollWait(w.s, w.waiting[k], now, deadline);
      w.(s := t, waiting := if status.Some? then w.waiting[..k] + w.waiting[k + 1..] else w.waiting)
  }

  function StepFail(w: World, h: Handle): World {
    var (t, r, _) := FailProvider(w.s, h);
    if !r.FailureApplied? then w.(s := t)
    else
      w.(s := t, touches := w.touches + [Chunks(OwnedBy(w.s.chunks, h))],
         ended := if w.s.activeClaim != t.activeClaim then w.ended + [w.s.activeClaim.id] else w.ended)
  }

  function StepAcquire(w: World, home: nat, r: Request): World {
    var (t, lease, status, transport) := AcquireLease(w.s, home, StorageAt(w, home), r);
    if status.Ok? && transport.Transport? then
      w.(s := t, storage := w.storage[home := lease], issued := w.issued[home := transport],
         touches := if r.direction.Write? then w.touches + [Sectors(r.sector, r.bytes / SECTOR_BYTES, false)]
                    else w.touches)
    else w.(s := t)
  }

  function StepResolve(w: World, home: nat, outcome: Outcome): World {
    var (t, lease, status, resolution) := ResolveLease(w.s, home, StorageAt(w, home), outcome);
    if status.Ok? && lease.Lease? then
      w.(s := t, storage := w.storage[home := lease],
         touches := if resolution.Current? && lease.direction.Write?
                    then w.touches + [Sectors(lease.sector, lease.count, outcome.Success?)] else w.touches)
    else w.(s := t)
  }

  function StepRelease(w: World, home: nat): World {
    var (t, lease, status) := ReleaseLease(w.s, home, StorageAt(w, home));
    if status.Ok? then w.(s := t, storage := w.storage[home := lease]) else w.(s := t)
  }

  function Step(w: World, op: Op): World
    requires w.s.sampleSize > 0
  {
    match op
    case DoObserve(h, o) => w.(s := Observe(w.s, h, o).0)
    case DoSetHot(p) => w.(s := SetHotPolicy(w.s, p))
    case DoActivity(start, count, write) => w.(s := NoteActivity(w.s, start, count, write))
    case DoNextMapping(draws) => w.(s := NextMapping(w.s, draws).0)
    case DoFinishMapping(c, action, h, grants) => StepFinishMapping(w, c, action, h, grants)
    case DoBeginEviction(h, ids, prior) => w.(s := BeginEviction(w.s, h, ids, prior).0)
    case DoFinishEviction(c) =>
      var (t, status) := FinishEviction(w.s, c);
      w.(s := t, touches := if status.Ok? then w.touches + [Chunks(EvictedBy(w.s.chunks, c.id))] else w.touches)
    case DoEnterWait(c, deadline) => StepEnterWait(w, c, deadline)
    case DoPollWait(k, now, deadline) => StepPollWait(w, k, now, deadline)
    case DoFail(h) => StepFail(w, h)
    case DoAcquire(home, r) => StepAcquire(w, home, r)
    case DoResolve(home, outcome) => StepResolve(w, home, outcome)
    case DoRelease(home) => StepRelease(w, home)
    case DoQuiesce => w.(s := Quiesce(w.s))
    case DoDestroy => w.(s := Destroy(w.s).0)
  }

  // ------------------------------------------------------------ the invariant

  predicate Held(l: Lease) { l.Lease? && !l.released }

  function HeldOn(w: World, chunk: int): set<nat> {
    set a | a in w.storage && Held(w.storage[a]) && w.storage[a].chunk == chunk
  }

  // A lease is current on a chunk whose memory is still the one granted, or its Provider has failed.
  ghost predicate Anchored(s: State, l: Lease, t: Transport)
    requires l.Lease? && l.chunk < |s.chunks| && t.Transport?
  {
    var c, h := s.chunks[l.chunk], t.provider;
    || (c.generation == l.generation && IsAssigned(c) && t == TransportTo(c, l.sector, l.chunk))
    || (c.generation > l.generation && h.epoch == s.epoch && 1 <= h.slot <= |s.providers|
        && s.providers[h.slot - 1].failed)
  }

  ghost predicate LeaseOk(w: World, a: nat)
    requires a in w.storage
  {
    var l := w.storage[a];
    && l.Lease? && l.home == a && l.epoch == w.s.epoch && 0 < l.id <= w.s.lastLease
    && 0 < l.generation <= w.s.lastGeneration && l.chunk < |w.s.chunks| && ChunkOf(l.sector) == l.chunk
    && 0 < l.count <= SECTORS_PER_CHUNK - l.sector % SECTORS_PER_CHUNK
    && (l.released ==> l.resolved)
    && a in w.issued && w.issued[a].Transport? && (!l.released ==> Anchored(w.s, l, w.issued[a]))
  }

  ghost predicate LeasesOk(w: World) {
    && (forall a :: a in w.storage ==> LeaseOk(w, a))
    && (forall i :: 0 <= i < |w.s.chunks| ==> w.s.chunks[i].leases == |HeldOn(w, i)|)
  }

  ghost predicate TouchesOk(w: World) {
    forall x :: x in w.s.valid <==> LastGood(w.touches, x)
  }

  // The claims that have ended are all those ever opened, in order, but for the open one.
  ghost predicate EndedOk(w: World) {
    && |w.ended| + w.s.mappingClaims == w.s.lastMappingClaim
    && forall k :: 0 <= k < |w.ended| ==> w.ended[k] == k + 1
  }

  ghost predicate WInv(w: World) {
    Inv(w.s) && LeasesOk(w) && TouchesOk(w) && EndedOk(w) && w.s.waits == |w.waiting|
  }

  // ---------------------------------------------- calls that issue no leases

  lemma EvolvedLease(w: World, v: World, a: nat)
    requires a in w.storage && LeaseOk(w, a) && LeasesOk(w) && Evolves(w.s, v.s)
    requires v.storage == w.storage && v.issued == w.issued
    ensures LeaseOk(v, a)
  {
    var l := w.storage[a];
    if !l.released {
      assert a in HeldOn(w, l.chunk);
      assert Kept(w.s.chunks[l.chunk], v.s.chunks[l.chunk]) || Retired(w.s, v.s, l.chunk);
    }
  }

  lemma EvolvedLeases(w: World, v: World)
    requires LeasesOk(w) && Evolves(w.s, v.s) && v.storage == w.storage && v.issued == w.issued
    ensures LeasesOk(v)
  {
    hide LeaseOk;
    forall a | a in v.storage ensures LeaseOk(v, a) { EvolvedLease(w, v, a); }
    forall i | 0 <= i < |v.s.chunks| ensures v.s.chunks[i].leases == |HeldOn(v, i)| {
      assert HeldOn(v, i) == HeldOn(w, i);
      assert Kept(w.s.chunks[i], v.s.chunks[i]) || Retired(w.s, v.s, i);
    }
  }

  lemma TouchAppended(touches: seq<Touch>, t: Touch, x: int)
    ensures LastGood(touches + [t], x) <==> if Covers(t, x) then t.Sectors? && t.good else LastGood(touches, x)
  {
    assert (touches + [t])[..|touches|] == touches;
  }

  lemma TouchesAppend(w: World, v: World, t: Touch)
    requires TouchesOk(w) && v.touches == w.touches + [t]
    requires forall x :: x in v.s.valid <==> if Covers(t, x) then t.Sectors? && t.good else x in w.s.valid
    ensures TouchesOk(v)
  {
    forall x ensures x in v.s.valid <==> LastGood(v.touches, x) { TouchAppended(w.touches, t, x); }
  }

  // Calls that leave validity and claims alone.
  ghost predicate Plain(s: State, t: State) {
    && t.valid == s.valid && s.lastMappingClaim == t.lastMappingClaim && t.mappingClaims == s.mappingClaims
    && t.waits == s.waits
  }

  lemma PlainStep(w: World, t: State)
    requires WInv(w) && Inv(t) && Evolves(w.s, t) && Plain(w.s, t)
    ensures WInv(w.(s := t))
  {
    hide Inv, Evolves, LeasesOk;
    EvolvedLeases(w, w.(s := t));
  }

  lemma NextMappingStep(w: World, draws: seq<nat>)
    requires WInv(w)
    ensures WInv(Step(w, DoNextMapping(draws)))
  {
    hide Inv, Evolves, LeasesOk;
    assert w.s.sampleSize > 0 by { SampleSizePositive(w.s); }
    NextMappingKeeps(w.s, draws);
    var v := Step(w, DoNextMapping(draws));
    EvolvedLeases(w, v);
    NextMappingFrame(w.s, draws);
  }

  // A new claim takes the next number; nothing else about claims or validity moves.
  ghost predicate Opens(s: State, t: State) {
    && t.valid == s.valid && t.waits == s.waits
    && (Plain(s, t) || (t.lastMappingClaim == s.lastMappingClaim + 1 && t.mappingClaims == s.mappingClaims + 1))
  }

  lemma CreateClaimFrame(s: State, h: Handle, chunk: nat)
    requires chunk < |s.chunks|
    ensures Opens(s, CreateClaim(s, h, chunk).0)
  {
    hide Live, Digest;
  }

  lemma NextMappingFrame(s: State, draws: seq<nat>)
    requires s.sampleSize > 0
    ensures Opens(s, NextMapping(s, draws).0)
  {
    hide CreateClaim, Eligible, Choose, Aggregate, SomePending, FirstWanted;
    if FirstWanted(s, 0).Some? && Eligible(s, |s.providers|) != [] {
      CreateClaimFrame(s, s.providers[Choose(s, Eligible(s, |s.providers|), draws)].handle, FirstWanted(s, 0).value);
    }
  }

  lemma FinishMappingStep(w: World, c: MappingClaim, action: FinishAction, h: Handle, grants: seq<Grant>)
    requires WInv(w)
    ensures WInv(StepFinishMapping(w, c, action, h, grants))
  {
    hide FinishMapping, Inv, LeasesOk, Evolves, ChunkSectors, Digest, ClaimIsActive, GrantsShaped, GrantAvailable,
      MappingSet, GrantUsable;
    var v := StepFinishMapping(w, c, action, h, grants);
    FinishMappingKeeps(w.s, c, action, h, grants);
    EvolvedLeases(w, v);
    FinishMeans(w.s, c, action, h, grants);
    var r := FinishMapping(w.s, c, action, h, grants).1;
    if r.Committed? {
      CommitShape(w.s, c, h, grants);
      var o := OpenClaim(w.s);
      var i := grants[0].chunk;
      assert GrantedChunks(grants) == {i};
      forall x ensures x in v.s.valid <==> if Covers(Chunks({i}), x) then false else x in w.s.valid { SectorChunk(x, i); }
      TouchesAppend(w, v, Chunks({i}));
    } else if r.Aborted? {
      AbortShape(w.s, c, h);
      var o := OpenClaim(w.s);
    } else {
      FinishUnchanged(w.s, c, action, h, grants);
    }
  }

  lemma FinishMeans(s: State, c: MappingClaim, action: FinishAction, h: Handle, grants: seq<Grant>)
    ensures var r := FinishMapping(s, c, action, h, grants).1;
      (r.Committed? ==> action.Commit?) && (r.Aborted? ==> action.Abort? && grants == [])
  {
    hide ClaimIsActive, GrantsShaped, GrantAvailable, GrantMatches, Live, ApplyGrants, Unclaim;
  }

  lemma SectorChunk(x: int, i: nat)
    ensures x in ChunkSectors(i) <==> ChunkOf(x) == i
  {}

  lemma AbortShape(s: State, c: MappingClaim, h: Handle)
    requires FinishMapping(s, c, Abort, h, []).1.Aborted?
    ensures var t := FinishMapping(s, c, Abort, h, []).0;
      && c == s.activeClaim && ClaimWellFormed(c) && t.valid == s.valid
      && t.lastMappingClaim == s.lastMappingClaim && t.mappingClaims == s.mappingClaims - 1 && t.waits == s.waits
  {
    hide Digest, Live;
  }

  // Only a commit or an abort changes the module.
  lemma FinishUnchanged(s: State, c: MappingClaim, action: FinishAction, h: Handle, grants: seq<Grant>)
    requires var r := FinishMapping(s, c, action, h, grants).1; !r.Committed? && !r.Aborted?
    ensures FinishMapping(s, c, action, h, grants).0 == s
  {
    hide ClaimIsActive, GrantsShaped, GrantAvailable, GrantMatches, Live;
  }

  lemma BeginFrame(s: State, h: Handle, ids: seq<nat>, prior: EvictionClaim)
    ensures Plain(s, BeginEviction(s, h, ids, prior).0)
  {
    hide CheckEviction, SelectBatch, Close, Live, Digest;
  }

  lemma BeginEvictionStep(w: World, h: Handle, ids: seq<nat>, prior: EvictionClaim)
    requires WInv(w)
    ensures WInv(w.(s := BeginEviction(w.s, h, ids, prior).0))
  {
    hide BeginEviction, Inv, Evolves, Plain;
    BeginEvictionKeeps(w.s, h, ids, prior);
    BeginFrame(w.s, h, ids, prior);
    PlainStep(w, BeginEviction(w.s, h, ids, prior).0);
  }

  lemma FinishEvictionStep(w: World, c: EvictionClaim)
    requires WInv(w)
    ensures WInv(Step(w, DoFinishEviction(c)))
  {
    hide Inv, Evolves, LeasesOk, CheckEviction, Drained, ResetMembers, Finishes, WholeBatches, ResetOf, EvictedBy;
    SampleSizePositive(w.s);
    FinishEvictionKeeps(w.s, c);
    var v := Step(w, DoFinishEviction(c));
    EvolvedLeases(w, v);
    if FinishEviction(w.s, c).1.Ok? {
      FinishFrame(w.s, c);
      TouchesAppend(w, v, Chunks(EvictedBy(w.s.chunks, c.id)));
    }
  }

  lemma FinishFrame(s: State, c: EvictionClaim)
    requires FinishEviction(s, c).1.Ok?
    ensures var t := FinishEviction(s, c).0;
      t.valid == Invalidate(s.valid, EvictedBy(s.chunks, c.id)) && t.mappingClaims == s.mappingClaims
      && t.lastMappingClaim == s.lastMappingClaim && t.waits == s.waits
  {
    hide CheckEviction, Drained;
  }

  lemma WaitStep(w: World, v: World)
    requires WInv(w) && v == w.(s := v.s, waiting := v.waiting) && v.s == w.s.(waits := |v.waiting|)
    ensures WInv(v)
  {
    hide Inv, LeasesOk, TouchesOk;
    QuietKeeps(w.s, v.s);
    EvolvedLeases(w, v);
    assert TouchesOk(v) by { TouchesSame(w, v); }
  }

  lemma TouchesSame(w: World, v: World)
    requires TouchesOk(w) && v.touches == w.touches && v.s.valid == w.s.valid
    ensures TouchesOk(v)
  {}

  lemma EnterWaitStep(w: World, c: EvictionClaim, deadline: nat)
    requires WInv(w)
    ensures WInv(StepEnterWait(w, c, deadline))
  {
    hide Inv, LeasesOk, TouchesOk, EndedOk, CheckEviction;
    var v := StepEnterWait(w, c, deadline);
    if EnterWait(w.s, c, deadline).1.Ok? { WaitStep(w, v); }
  }

  lemma PollWaitStep(w: World, k: nat, now: Option<nat>, deadline: nat)
    requires WInv(w)
    ensures WInv(StepPollWait(w, k, now, deadline))
  {
    hide Inv, LeasesOk, TouchesOk, EndedOk, CheckEviction, Drained;
    var v := StepPollWait(w, k, now, deadline);
    if k < |w.waiting| && PollWait(w.s, w.waiting[k], now, deadline).1.Some? { WaitStep(w, v); }
  }

  lemma FailStep(w: World, h: Handle)
    requires WInv(w)
    ensures WInv(StepFail(w, h))
  {
    hide FailProvider, Inv, Evolves, LeasesOk, ResetOf, OwnedBy, MappingSet, MappedSet, AssignedSet, EvictionHeads;
    FailProviderKeeps(w.s, h);
    var v := StepFail(w, h);
    EvolvedLeases(w, v);
    if FailProvider(w.s, h).1.FailureApplied? {
      FailShape(w.s, h);
      TouchesAppend(w, v, Chunks(OwnedBy(w.s.chunks, h)));
      if |OwnedBy(w.s.chunks, h) * MappingSet(w.s.chunks)| != 0 {
        OpenIsOwned(w.s, h);
        var i := OpenClaim(w.s);
        assert MappingSet(w.s.chunks) - OwnedBy(w.s.chunks, h) == {};
      } else {
        Apart(OwnedBy(w.s.chunks, h), MappingSet(w.s.chunks));
        MappingCount(w.s);
      }
    } else {
      FailRefused(w.s, h);
    }
  }

  lemma MappingCount(s: State)
    requires Inv(s)
    ensures s.mappingClaims == |MappingSet(s.chunks)|
  {}

  // ------------------------------------------------------------ lease calls

  // Only one lease storage is rewritten, and it keeps its chunk.
  lemma HeldUpdate(w: World, v: World, home: nat, l: Lease, i: int)
    requires v.storage == w.storage[home := l] && l.Lease?
    requires home in w.storage ==> w.storage[home].Lease? && w.storage[home].chunk == l.chunk
    ensures var was := home in w.storage && Held(w.storage[home]);
      |HeldOn(v, i)| == |HeldOn(w, i)| + (if l.chunk == i && Held(l) && !was then 1 else 0)
                                       - (if l.chunk == i && !Held(l) && was then 1 else 0)
  {
    hide HeldOn;
    forall a: nat ensures a in HeldOn(v, i) <==> if a == home then l.chunk == i && Held(l) else a in HeldOn(w, i) {
      HeldMember(v, i, a);
      HeldMember(w, i, a);
    }
    HeldMember(w, i, home);
    if l.chunk == i && Held(l) {
      assert HeldOn(v, i) == HeldOn(w, i) + {home};
    } else {
      assert HeldOn(v, i) == HeldOn(w, i) - {home};
    }
  }

  lemma HeldMember(w: World, i: int, a: nat)
    ensures a in HeldOn(w, i) <==> a in w.storage && Held(w.storage[a]) && w.storage[a].chunk == i
  {}

  // What a granted lease records.
  ghost predicate Granted(s: State, t: State, home: nat, r: Request, l: Lease, memory: Transport) {
    var i := ChunkOf(r.sector);
    && 0 <= i < |s.chunks| && s.chunks[i].phase.Mapped? && memory == TransportTo(s.chunks[i], r.sector, i)
    && s.lastLease < ID_MAX && r.bytes > 0 && r.bytes % SECTOR_BYTES == 0
    && 0 < r.bytes / SECTOR_BYTES <= SECTORS_PER_CHUNK - r.sector % SECTORS_PER_CHUNK
    && t == s.(chunks := s.chunks[i := s.chunks[i].(leases := s.chunks[i].leases + 1)], leases := s.leases + 1,
               lastLease := s.lastLease + 1,
               valid := if r.direction.Write? then s.valid - Range(r.sector, r.bytes / SECTOR_BYTES) else s.valid)
    && l == Lease(home, s.epoch, s.lastLease + 1, s.chunks[i].generation, r.sector, r.bytes / SECTOR_BYTES, i,
                  r.direction, false, false)
    && (r.direction.Read? ==> Range(r.sector, r.bytes / SECTOR_BYTES) <= s.valid)
  }

  lemma AcquireShape(s: State, home: nat, storage: Lease, r: Request)
    requires Shape(s)
    ensures var (t, l, status, transport) := AcquireLease(s, home, storage, r);
      if status.Ok? then storage.Blank? && transport.Transport? && Granted(s, t, home, r, l, transport)
      else t == s && l == storage
  {
    RangeExact(s, r);
  }

  lemma AcquiredLease(w: World, v: World, home: nat, r: Request, l: Lease, memory: Transport, a: nat)
    requires Shape(w.s) && ChunksOk(w.s) && LeasesOk(w) && Granted(w.s, v.s, home, r, l, memory) && home !in w.storage
    requires v.storage == w.storage[home := l] && v.issued == w.issued[home := memory] && a in v.storage
    ensures LeaseOk(v, a)
  {
    hide LiveSlot, Digest;
    assert ChunkOk(w.s, ChunkOf(r.sector));
    assert a != home ==> LeaseOk(w, a);
  }

  lemma AcquireStep(w: World, home: nat, r: Request)
    requires WInv(w)
    ensures WInv(StepAcquire(w, home, r))
  {
    hide AcquireLease, ChunksOk, ClaimsOk, CountersOk, BatchesOk, GrantsUnique, ValidityOk, DebitsOk, ModeOk, LeaseOk, HeldOn;
    AcquireKeeps(w.s, home, StorageAt(w, home), r);
    AcquireShape(w.s, home, StorageAt(w, home), r);
    var v := StepAcquire(w, home, r);
    var (t, l, status, transport) := AcquireLease(w.s, home, StorageAt(w, home), r);
    if status.Ok? {
      assert home !in w.storage by { StorageIsLease(w); }
      forall a | a in v.storage ensures LeaseOk(v, a) { AcquiredLease(w, v, home, r, l, transport, a); }
      forall i | 0 <= i < |v.s.chunks| ensures v.s.chunks[i].leases == |HeldOn(v, i)| { HeldUpdate(w, v, home, l, i); }
      if r.direction.Write? { TouchesAppend(w, v, Sectors(r.sector, r.bytes / SECTOR_BYTES, false)); }
    }
  }

  lemma StorageIsLease(w: World)
    requires LeasesOk(w)
    ensures forall a :: a in w.storage ==> w.storage[a].Lease?
  {}

  // Resolving and releasing keep everything of the lease but its two flags.
  lemma FlaggedLease(w: World, v: World, home: nat, l: Lease, a: nat)
    requires LeasesOk(w) && home in w.storage && a in v.storage
    requires v.storage == w.storage[home := l] && v.issued == w.issued
    requires w.storage[home].Lease? && l.Lease? && l == w.storage[home].(resolved := l.resolved, released := l.released)
    requires (l.released ==> l.resolved) && (w.storage[home].released ==> l.released)
    requires |v.s.chunks| == |w.s.chunks|
    requires v.s == w.s.(chunks := v.s.chunks, leases := v.s.leases, valid := v.s.valid)
    requires forall i :: 0 <= i < |w.s.chunks| ==> v.s.chunks[i] == w.s.chunks[i].(leases := v.s.chunks[i].leases)
    ensures LeaseOk(v, a)
  {
    assert LeaseOk(w, a);
    assert LeaseOk(w, home);
  }

  lemma ResolveStep(w: World, home: nat, outcome: Outcome)
    requires WInv(w)
    ensures WInv(StepResolve(w, home, outcome))
  {
    hide ChunksOk, ClaimsOk, CountersOk, BatchesOk, GrantsUnique, ValidityOk, DebitsOk, ModeOk, HeldOn;
    assert home in w.storage ==> LeaseOk(w, home);
    var l := StorageAt(w, home);
    ResolveKeeps(w.s, home, l, outcome);
    var v := StepResolve(w, home, outcome);
    if ResolveLease(w.s, home, l, outcome).2.Ok? {
      hide LeaseOk;
      forall a | a in v.storage ensures LeaseOk(v, a) { FlaggedLease(w, v, home, v.storage[home], a); }
      forall i | 0 <= i < |v.s.chunks| ensures v.s.chunks[i].leases == |HeldOn(v, i)| {
        HeldUpdate(w, v, home, v.storage[home], i);
      }
      if v.touches != w.touches { TouchesAppend(w, v, Sectors(l.sector, l.count, outcome.Success?)); }
    } else {
      NotedStep(w, v);
    }
  }

  // Recording an invariant event changes nothing a lease depends on.
  lemma NotedStep(w: World, v: World)
    requires WInv(w) && Inv(v.s) && v == w.(s := v.s)
    requires v.s == w.s.(invariants := v.s.invariants, latestInvariant := v.s.latestInvariant)
    ensures WInv(v)
  {
    hide Inv;
    assert Evolves(w.s, v.s);
    PlainStep(w, v.s);
  }

  lemma ReleaseStep(w: World, home: nat)
    requires WInv(w)
    ensures WInv(StepRelease(w, home))
  {
    hide ChunksOk, ClaimsOk, CountersOk, BatchesOk, GrantsUnique, ValidityOk, DebitsOk, ModeOk, HeldOn;
    assert home in w.storage ==> LeaseOk(w, home);
    var l := StorageAt(w, home);
    ReleaseKeeps(w.s, home, l);
    var v := StepRelease(w, home);
    if ReleaseLease(w.s, home, l).2.Ok? {
      hide LeaseOk;
      forall a | a in v.storage ensures LeaseOk(v, a) { FlaggedLease(w, v, home, v.storage[home], a); }
      forall i | 0 <= i < |v.s.chunks| ensures v.s.chunks[i].leases == |HeldOn(v, i)| {
        HeldUpdate(w, v, home, v.storage[home], i);
      }
    } else {
      NotedStep(w, v);
    }
  }

  // ------------------------------------------------------------- every run

  lemma StartInv(c: Config, epoch: nat)
    requires ConfigAccepted(c) && 0 < epoch < ID_MAX
    ensures WInv(Start(c, epoch))
  {
    CreateInv(c, epoch);
    var w := Start(c, epoch);
    forall i | 0 <= i < |w.s.chunks| ensures w.s.chunks[i].leases == |HeldOn(w, i)| {
      assert HeldOn(w, i) == {};
    }
  }

  lemma StepKeeps(w: World, op: Op)
    requires WInv(w)
    ensures w.s.sampleSize > 0 && WInv(Step(w, op))
  {
    hide Inv, Evolves, LeasesOk, TouchesOk, EndedOk, NextMapping, BeginEviction, FinishEviction, StepFinishMapping, StepFail,
      StepEnterWait, StepPollWait, StepAcquire, StepResolve, StepRelease;
    SampleSizePositive(w.s);
    match op
    case DoObserve(h, o) =>
      ObserveKeeps(w.s, h, o);
      PlainStep(w, Observe(w.s, h, o).0);
    case DoSetHot(p) =>
      QuietKeeps(w.s, SetHotPolicy(w.s, p));
      PlainStep(w, SetHotPolicy(w.s, p));
    case DoActivity(start, count, write) =>
      NoteActivityKeeps(w.s, start, count, write);
      PlainStep(w, NoteActivity(w.s, start, count, write));
    case DoNextMapping(draws) => NextMappingStep(w, draws);
    case DoFinishMapping(c, action, h, grants) => FinishMappingStep(w, c, action, h, grants);
    case DoBeginEviction(h, ids, prior) => BeginEvictionStep(w, h, ids, prior);
    case DoFinishEviction(c) => FinishEvictionStep(w, c);
    case DoEnterWait(c, deadline) => EnterWaitStep(w, c, deadline);
    case DoPollWait(k, now, deadline) => PollWaitStep(w, k, now, deadline);
    case DoFail(h) => FailStep(w, h);
    case DoAcquire(home, r) => AcquireStep(w, home, r);
    case DoResolve(home, outcome) => ResolveStep(w, home, outcome);
    case DoRelease(home) => ReleaseStep(w, home);
    case DoQuiesce =>
      QuietKeeps(w.s, Quiesce(w.s));
      PlainStep(w, Quiesce(w.s));
    case DoDestroy =>
      QuietKeeps(w.s, Destroy(w.s).0);
      PlainStep(w, Destroy(w.s).0);
  }

  // The world after a sequence of calls.
  ghost function Run(w: World, ops: seq<Op>): (v: World)
    requires WInv(w)
    ensures WInv(v)
    decreases |ops|
  {
    if ops == [] then w
    else
      StepKeeps(w, ops[0]);
      Run(Step(w, ops[0]), ops[1..])
  }

  // The world after a sequence of calls to a fresh module.
  ghost function Reach(c: Config, epoch: nat, ops: seq<Op>): (w: World)
    requires ConfigAccepted(c) && 0 < epoch < ID_MAX
    ensures WInv(w)
  {
    StartInv(c, epoch);
    Run(Start(c, epoch), ops)
  }
}
