/**
 Writes in flight: a sector can be valid while a write lease over it is still
 unresolved, because two write leases may cover one sector. It happens exactly
 when a write is resolved as successful while another unresolved write overlaps it.
 */
module ChunkWriters {
  import opened SectorBitmap
  import opened ChunkState
  import opened ChunkInvariant
  import opened ChunkRuns
  import opened ChunkProgress

  // An unresolved write lease stored at a covers the sector.
  predicate Writing(w: World, a: nat, x: int) {
    && a in w.storage && w.storage[a].Lease? && w.storage[a].direction.Write? && !w.storage[a].resolved
    && w.storage[a].sector <= x < w.storage[a].sector + w.storage[a].count
  }

  // No valid sector is being written.
  ghost predicate Settled(w: World) {
    forall a, x :: Writing(w, a, x) ==> x !in w.s.valid
  }

  predicate Shares(w: World, a: nat, b: nat, x: int) { a != b && Writing(w, a, x) && Writing(w, b, x) }

  // The lease's chunk still has the generation it was issued under.
  predicate IsCurrent(w: World, a: nat) {
    && a in w.storage && w.storage[a].Lease? && w.storage[a].chunk < |w.s.chunks|
    && w.s.chunks[w.storage[a].chunk].generation == w.storage[a].generation
  }

  // Before the call: it is to resolve a current write as successful, and another unresolved write overlaps that write.
  ghost predicate Overlaps(w: World, op: Op) {
    op.DoResolve? && op.outcome.Success? && IsCurrent(w, op.home) && exists b, x :: Shares(w, op.home, b, x)
  }

  // ------------------------------------------------------------------ one call

  // Calls after which no sector is newly valid and no write is new.
  lemma QuietStep(w: World, v: World)
    requires Settled(w) && TouchesOk(w) && TouchesOk(v)
    requires forall a, x :: Writing(v, a, x) ==> Writing(w, a, x)
    requires v.touches == w.touches || exists t :: v.touches == w.touches + [t] && (t.Sectors? ==> !t.good)
    ensures Settled(v)
  {
    forall a, x | Writing(v, a, x) ensures x !in v.s.valid {
      assert Writing(w, a, x);
      if v.touches != w.touches {
        var t :| v.touches == w.touches + [t] && (t.Sectors? ==> !t.good);
        TouchAppended(w.touches, t, x);
      }
    }
  }

  // Calls on claims, Providers and the module as a whole store no lease and validate no sector.
  lemma ModuleCall(w: World, op: Op)
    requires w.s.sampleSize > 0 && !op.DoAcquire? && !op.DoResolve? && !op.DoRelease?
    ensures var v := Step(w, op);
      v.storage == w.storage && (v.touches == w.touches || exists m :: v.touches == w.touches + [Chunks(m)])
  {
    hide Observe, SetHotPolicy, NoteActivity, NextMapping, FinishMapping, BeginEviction, FinishEviction, EnterWait, PollWait,
      FailProvider, Quiesce, Destroy, EvictedBy, OwnedBy, GrantedChunks;
    match op
    case DoFinishMapping(c, action, h, grants) => FinishTouches(w, c, action, h, grants);
    case DoFinishEviction(c) => EvictionTouches(w, c);
    case DoFail(h) => FailTouches(w, h);
    case _ =>
  }

  lemma FinishTouches(w: World, c: MappingClaim, action: FinishAction, h: Handle, grants: seq<Grant>)
    ensures var v := StepFinishMapping(w, c, action, h, grants);
      v.storage == w.storage && (v.touches == w.touches || v.touches == w.touches + [Chunks(GrantedChunks(grants))])
  {
    hide FinishMapping, GrantedChunks;
  }

  lemma EvictionTouches(w: World, c: EvictionClaim)
    requires w.s.sampleSize > 0
    ensures var v := Step(w, DoFinishEviction(c));
      v.storage == w.storage && (v.touches == w.touches || v.touches == w.touches + [Chunks(EvictedBy(w.s.chunks, c.id))])
  {
    hide FinishEviction, EvictedBy;
  }

  lemma FailTouches(w: World, h: Handle)
    ensures var v := StepFail(w, h);
      v.storage == w.storage && (v.touches == w.touches || v.touches == w.touches + [Chunks(OwnedBy(w.s.chunks, h))])
  {
    hide FailProvider, OwnedBy;
  }

  lemma ReleaseWrites(w: World, home: nat, a: nat, x: int)
    requires Writing(StepRelease(w, home), a, x)
    ensures Writing(w, a, x)
  {
    hide CheckLease;
  }

  lemma ReleaseTouches(w: World, home: nat)
    ensures StepRelease(w, home).touches == w.touches
  {
    hide ReleaseLease;
  }

  lemma ShapeOf(w: World)
    requires WInv(w)
    ensures Shape(w.s)
  {}

  // What a granted acquire stores, and which sectors stay valid.
  lemma AcquireEffect(w: World, home: nat, r: Request)
    requires Shape(w.s)
    ensures var (v, l) := (StepAcquire(w, home, r), AcquireLease(w.s, home, StorageAt(w, home), r).1);
      || (v.storage == w.storage && v.s.valid == w.s.valid)
      || (v.storage == w.storage[home := l] && l.Lease? && l.direction == r.direction && v.s.valid <= w.s.valid
          && (r.direction.Write? ==> v.s.valid !! Range(l.sector, l.count)))
  {
    AcquireShape(w.s, home, StorageAt(w, home), r);
    hide AcquireLease, Range;
  }

  lemma AcquireStays(w: World, home: nat, r: Request)
    requires WInv(w) && Settled(w)
    ensures Settled(StepAcquire(w, home, r))
  {
    hide StepAcquire, AcquireLease;
    ShapeOf(w);
    hide WInv;
    AcquireEffect(w, home, r);
    var v := StepAcquire(w, home, r);
    var l := AcquireLease(w.s, home, StorageAt(w, home), r).1;
    forall a, x | Writing(v, a, x) ensures x !in v.s.valid {
      if v.storage != w.storage && a == home {
        assert x in Range(l.sector, l.count);
      } else {
        assert Writing(w, a, x);
      }
    }
  }

  lemma StoredChecks(w: World, a: nat)
    requires WInv(w) && a in w.storage
    ensures w.storage[a].Lease? && w.storage[a].chunk < |w.s.chunks| && CheckLease(w.s, a, w.storage[a]).Ok?
  {
    hide Inv, TouchesOk, EndedOk, Anchored;
    assert LeaseOk(w, a);
  }

  // An unresolved write in storage is always accepted for resolving.
  lemma WriteResolves(w: World, a: nat, x: int, outcome: Outcome)
    requires WInv(w) && Writing(w, a, x)
    ensures ResolveLease(w.s, a, StorageAt(w, a), outcome).2.Ok?
  {
    hide WInv;
    StoredChecks(w, a);
    hide CheckLease, Range;
  }

  lemma ResolveCurrent(w: World, home: nat, outcome: Outcome)
    requires ResolveLease(w.s, home, StorageAt(w, home), outcome).2.Ok?
    ensures ResolveLease(w.s, home, StorageAt(w, home), outcome).3.Current? <==> IsCurrent(w, home)
  {
    hide Range;
    LeaseChecked(w.s, home, StorageAt(w, home));
    hide CheckLease;
  }

  // Resolving leaves the sectors settled unless it validates one that another write still covers.
  lemma ResolveSettles(w: World, home: nat, outcome: Outcome)
    requires WInv(w) && Settled(w)
    ensures Settled(StepResolve(w, home, outcome)) <==> !Overlaps(w, DoResolve(home, outcome))
  {
    hide WInv, ResolveLease, StepResolve, IsCurrent;
    var v := StepResolve(w, home, outcome);
    if ResolveLease(w.s, home, StorageAt(w, home), outcome).2.Ok? {
      ResolveCurrent(w, home, outcome);
      forall a, x ensures Writing(v, a, x) <==> a != home && Writing(w, a, x) { ResolveWrites(w, home, outcome, a, x); }
      if Overlaps(w, DoResolve(home, outcome)) {
        var b, x :| Shares(w, home, b, x);
        assert Writing(v, b, x) && x in v.s.valid by { ResolveValid(w, home, outcome, x); }
      } else {
        forall a, x | Writing(v, a, x) ensures x !in v.s.valid {
          ResolveValid(w, home, outcome, x);
          assert Shares(w, home, a, x) <==> Writing(w, home, x);
        }
      }
    } else {
      RefusedResolve(w, home, outcome);
      forall b, x ensures !Shares(w, home, b, x) { NothingRefused(w, home, b, x, outcome); }
      forall a, x | Writing(v, a, x) ensures x !in v.s.valid { assert Writing(w, a, x); }
    }
  }

  lemma NothingRefused(w: World, home: nat, b: nat, x: int, outcome: Outcome)
    requires WInv(w) && !ResolveLease(w.s, home, StorageAt(w, home), outcome).2.Ok?
    ensures !Shares(w, home, b, x)
  {
    hide WInv, ResolveLease;
    if Writing(w, home, x) { WriteResolves(w, home, x, outcome); }
  }

  lemma ResolvedLease(w: World, home: nat, outcome: Outcome)
    requires ResolveLease(w.s, home, StorageAt(w, home), outcome).2.Ok?
    ensures home in w.storage && w.storage[home].Lease? && !w.storage[home].resolved
    ensures StepResolve(w, home, outcome).storage == w.storage[home := w.storage[home].(resolved := true)]
  {
    hide Range;
    LeaseChecked(w.s, home, StorageAt(w, home));
  }

  lemma ResolveWrites(w: World, home: nat, outcome: Outcome, a: nat, x: int)
    requires ResolveLease(w.s, home, StorageAt(w, home), outcome).2.Ok?
    ensures Writing(StepResolve(w, home, outcome), a, x) <==> a != home && Writing(w, a, x)
  {
    hide StepResolve, ResolveLease;
    ResolvedLease(w, home, outcome);
  }

  lemma ResolveValid(w: World, home: nat, outcome: Outcome, x: int)
    requires ResolveLease(w.s, home, StorageAt(w, home), outcome).2.Ok?
    ensures var current := ResolveLease(w.s, home, StorageAt(w, home), outcome).3.Current?;
      x in StepResolve(w, home, outcome).s.valid <==>
        if current && Writing(w, home, x) then outcome.Success? else x in w.s.valid
  {
    ResolvedLease(w, home, outcome);
    hide CheckLease;
  }

  lemma RefusedResolve(w: World, home: nat, outcome: Outcome)
    requires !ResolveLease(w.s, home, StorageAt(w, home), outcome).2.Ok?
    ensures var v := StepResolve(w, home, outcome); v.storage == w.storage && v.s.valid == w.s.valid
  {
    hide CheckLease;
  }

  // A call leaves every valid sector without a write in flight exactly when it is not an overlapping resolve.
  lemma SettledStep(w: World, op: Op)
    requires WInv(w) && Settled(w) && w.s.sampleSize > 0
    ensures Settled(Step(w, op)) <==> !Overlaps(w, op)
  {
    hide StepAcquire, StepResolve, StepRelease, Writing, Overlaps;
    var v := Step(w, op);
    StepKeeps(w, op);
    match op
    case DoAcquire(home, r) =>
      AcquireStays(w, home, r);
      NoOverlap(w, op);
    case DoResolve(home, outcome) => ResolveSettles(w, home, outcome);
    case DoRelease(home) =>
      forall a, x | Writing(v, a, x) ensures Writing(w, a, x) { ReleaseWrites(w, home, a, x); }
      ReleaseTouches(w, home);
      TouchesHold(w);
      TouchesHold(v);
      QuietStep(w, v);
      NoOverlap(w, op);
    case _ =>
      ModuleSettles(w, op);
      NoOverlap(w, op);
  }

  lemma NoOverlap(w: World, op: Op)
    requires !op.DoResolve?
    ensures !Overlaps(w, op)
  {}

  lemma TouchesHold(w: World)
    requires WInv(w)
    ensures TouchesOk(w)
  {}

  lemma ModuleSettles(w: World, op: Op)
    requires WInv(w) && Settled(w) && w.s.sampleSize > 0 && !op.DoAcquire? && !op.DoResolve? && !op.DoRelease?
    ensures Settled(Step(w, op))
  {
    StepKeeps(w, op);
    hide WInv, Step, TouchesOk;
    TouchesHold(w);
    TouchesHold(Step(w, op));
    ModuleCall(w, op);
    QuietStep(w, Step(w, op));
  }

  // ---------------------------------------------------------------------- runs

  lemma RunStep(w: World, op: Op, ops: seq<Op>)
    requires WInv(w)
    ensures w.s.sampleSize > 0 && WInv(Step(w, op)) && Run(w, [op] + ops) == Run(Step(w, op), ops)
  {
    hide WInv, Step;
    StepKeeps(w, op);
    assert ([op] + ops)[1..] == ops;
  }

  // No valid sector is being written at any point of the run.
  ghost predicate SettledThroughout(w: World, ops: seq<Op>)
    requires WInv(w)
    decreases |ops|
  {
    Settled(w) && (ops == [] || (StepKeeps(w, ops[0]); SettledThroughout(Step(w, ops[0]), ops[1..])))
  }

  // No call of the run is an overlapping resolve.
  ghost predicate NeverOverlaps(w: World, ops: seq<Op>)
    requires WInv(w)
    decreases |ops|
  {
    ops == [] || (!Overlaps(w, ops[0]) && (StepKeeps(w, ops[0]); NeverOverlaps(Step(w, ops[0]), ops[1..])))
  }

  // Over a whole run no valid sector is ever being written exactly when no call is an overlapping resolve; the first
  // such call breaks it.
  lemma {:induction false} SettledExactly(w: World, ops: seq<Op>)
    requires WInv(w) && Settled(w)
    ensures SettledThroughout(w, ops) <==> NeverOverlaps(w, ops)
    decreases |ops|
  {
    hide WInv, Step, Settled, Overlaps;
    if ops != [] {
      StepKeeps(w, ops[0]);
      SettledStep(w, ops[0]);
      var v := Step(w, ops[0]);
      if Settled(v) { SettledExactly(v, ops[1..]); } else { Unsettled(v, ops[1..]); }
    }
  }

  lemma Unsettled(w: World, ops: seq<Op>)
    requires WInv(w) && !Settled(w)
    ensures !SettledThroughout(w, ops)
  {
    hide WInv, Step;
  }

  // The same from a fresh module, where no lease is stored yet.
  lemma SettledFromStart(c: Config, epoch: nat, ops: seq<Op>, op: Op)
    requires ConfigAccepted(c) && 0 < epoch < ID_MAX
    ensures WInv(Start(c, epoch)) && (SettledThroughout(Start(c, epoch), ops) <==> NeverOverlaps(Start(c, epoch), ops))
    ensures NeverOverlaps(Start(c, epoch), ops) ==>
      && Settled(Reach(c, epoch, ops))
      && (Settled(Reach(c, epoch, ops + [op])) <==> !Overlaps(Reach(c, epoch, ops), op))
  {
    hide WInv, Step, Overlaps, NeverOverlaps, SettledThroughout, Run;
    StartInv(c, epoch);
    SettledExactly(Start(c, epoch), ops);
    if NeverOverlaps(Start(c, epoch), ops) { FirstOverlapBreaks(Start(c, epoch), ops, op); }
  }

  // A run without an overlapping resolve ends settled, and the call after it breaks that exactly when it is one.
  lemma {:induction false} FirstOverlapBreaks(w: World, ops: seq<Op>, op: Op)
    requires WInv(w) && Settled(w) && NeverOverlaps(w, ops)
    ensures Settled(Run(w, ops)) && (Settled(Run(w, ops + [op])) <==> !Overlaps(Run(w, ops), op))
    decreases |ops|
  {
    hide WInv, Step, Settled, Overlaps;
    if ops == [] {
      RunStep(w, op, []);
      SettledStep(w, op);
      assert ops + [op] == [op] + [];
    } else {
      RunStep(w, ops[0], ops[1..]);
      RunStep(w, ops[0], ops[1..] + [op]);
      SettledStep(w, ops[0]);
      FirstOverlapBreaks(Step(w, ops[0]), ops[1..], op);
      assert ops == [ops[0]] + ops[1..] && ops + [op] == [ops[0]] + (ops[1..] + [op]);
    }
  }

  // ----------------------------------------------------------------- two writers

  // Whenever two unresolved writes cover a sector, resolving one of them as successful, while its chunk still has the
  // generation it was issued under, makes the sector valid under the other.
  lemma TwoWriters(w: World, a: nat, b: nat, x: int)
    requires WInv(w) && w.s.sampleSize > 0 && Shares(w, a, b, x) && IsCurrent(w, a)
    ensures var v := Step(w, DoResolve(a, Success));
      Overlaps(w, DoResolve(a, Success)) && x in v.s.valid && Writing(v, b, x) && !Settled(v)
  {
    hide WInv, StepResolve, ResolveLease;
    WriteResolves(w, a, x, Success);
    ResolveCurrent(w, a, Success);
    ResolveValid(w, a, Success, x);
    ResolveWrites(w, a, Success, b, x);
  }

  predicate Grants(w: World, home: nat, r: Request) { AcquireLease(w.s, home, StorageAt(w, home), r).2.Ok? }

  // A granted write is in flight over its range, under the current generation of its chunk.
  lemma GrantedWriting(w: World, home: nat, r: Request)
    requires WInv(w) && Grants(w, home, r) && r.direction.Write?
    ensures var v := StepAcquire(w, home, r);
      && v.storage == w.storage[home := v.storage[home]] && home !in w.storage && v.storage[home].Lease?
      && (forall x :: r.sector <= x < r.sector + r.bytes / SECTOR_BYTES ==> Writing(v, home, x))
      && v.storage[home].chunk < |v.s.chunks| == |w.s.chunks|
      && v.s.chunks[v.storage[home].chunk].generation == v.storage[home].generation
      && forall i :: 0 <= i < |w.s.chunks| ==> v.s.chunks[i].generation == w.s.chunks[i].generation
  {
    ShapeOf(w);
    hide Inv, TouchesOk, EndedOk, Anchored;
    assert home in w.storage ==> LeaseOk(w, home);
    AcquireShape(w.s, home, StorageAt(w, home), r);
    hide AcquireLease, Range, LeasesOk;
  }

  // Nothing stops a second write over a range: once both are granted, the first success leaves a valid sector in flight.
  lemma OverlappingWrites(w: World, a: nat, ra: Request, b: nat, rb: Request, x: int)
    requires WInv(w) && ra.direction.Write? && rb.direction.Write?
    requires ra.sector <= x < ra.sector + ra.bytes / SECTOR_BYTES && rb.sector <= x < rb.sector + rb.bytes / SECTOR_BYTES
    requires Grants(w, a, ra) && Grants(StepAcquire(w, a, ra), b, rb)
    ensures var v := Run(w, [DoAcquire(a, ra), DoAcquire(b, rb), DoResolve(a, Success)]);
      x in v.s.valid && Writing(v, b, x) && !Settled(v)
  {
    hide WInv, StepAcquire, Grants, StepResolve, Settled;
    var u := StepAcquire(w, a, ra);
    var v := StepAcquire(u, b, rb);
    var ops := [DoAcquire(a, ra), DoAcquire(b, rb), DoResolve(a, Success)];
    assert ops == [ops[0]] + ([ops[1]] + ([ops[2]] + []));
    RunStep(w, ops[0], [ops[1]] + ([ops[2]] + []));
    RunStep(u, ops[1], [ops[2]] + []);
    RunStep(v, ops[2], []);
    GrantedWriting(w, a, ra);
    GrantedWriting(u, b, rb);
    assert Writing(u, a, x) && Writing(v, a, x) && Writing(v, b, x) && a != b;
    TwoWriters(v, a, b, x);
  }

  // ------------------------------------------------------------------- one run

  const EXAMPLE := Config(RemoteOnly, 1, HotPolicy(1, 1, 1), [1], 1)
  const PEER := Handle(1, 1)
  const REPORT := Observation(1, 1, NotExcluded, true)
  const TURN := Turn([], 0, 1, 1)

  function ExampleClaim(): MappingClaim { NewClaim(Observe(Create(EXAMPLE, 1), PEER, REPORT).0, PEER, 0) }

  // Report memory, map the one chunk, then write its first sector twice and finish the first write.
  function ExampleRun(): seq<Op> {
    var r := Request(Write, 0, SECTOR_BYTES);
    [DoObserve(PEER, REPORT), DoNextMapping([]), DoFinishMapping(ExampleClaim(), Commit, PEER, [GrantOf(TURN, 0)]),
     DoAcquire(1, r), DoAcquire(2, r), DoResolve(1, Success)]
  }

  lemma ExampleObserved()
    ensures var s := Observe(Create(EXAMPLE, 1), PEER, REPORT).0;
      && Reserving(s) && s.usableCount == 0 && |s.chunks| == 1 && s.chunks[0] == FRESH_CHUNK && |s.providers| == 1
      && s.providers[0].handle == PEER && s.lastLease == 0 && s.leases == 0 && s.epoch == 1
  {
    var s := Create(EXAMPLE, 1);
    var t := Observe(s, PEER, REPORT).0;
    CreateInv(EXAMPLE, 1);
    ObserveKeeps(s, PEER, REPORT);
    hide Inv;
    assert s.providers[0].handle == PEER;
    assert OwnedBy(s.chunks, PEER) == {};
    assert Available(t, 0) == 1;
    assert Aggregate(t, 1) == 1;
  }

  // After the claim is committed the chunk is mapped and nothing has been leased yet.
  ghost predicate Opened(s: State) {
    && |s.chunks| == 1 && s.chunks[0].phase.Mapped? && s.chunks[0].leases == 0 && s.leases == 0 && s.lastLease == 0
    && !s.quiescing
  }

  lemma ExampleMapped()
    ensures var s := Observe(Create(EXAMPLE, 1), PEER, REPORT).0;
      && s.sampleSize > 0
      && Opened(FinishMapping(NextMapping(s, []).0, ExampleClaim(), Commit, PEER, [GrantOf(TURN, 0)]).0)
  {
    ExampleObserved();
    hide Observe, Create, NextMapping, FinishMapping, NewClaim;
    var s := Observe(Create(EXAMPLE, 1), PEER, REPORT).0;
    var p, chunk := AsksWhileShort(s, []);
    SampleSizePositive(s);
    NextMappingKeeps(s, []);
    hide Inv, Live, Available, Aggregate, SomePending;
    ClaimCommits(s, ClaimOpened(s, PEER, 0));
  }

  lemma ClaimCommits(s: State, t: State)
    requires Inv(t) && |s.chunks| == 1 && s.chunks[0] == FRESH_CHUNK && s.lastGeneration < ID_MAX && !s.quiescing
    requires t == ClaimOpened(s, PEER, 0) && s.leases == 0 && s.lastLease == 0 && s.epoch == 1
    ensures Opened(FinishMapping(t, NewClaim(s, PEER, 0), Commit, PEER, [GrantOf(TURN, 0)]).0)
  {
    hide Inv, FinishMapping, Digest;
    var g := GrantOf(TURN, 0);
    CommitAccepted(t, 0, g);
    CommitShape(t, t.activeClaim, PEER, [g]);
  }

  lemma PlainSteps(w: World, h: Handle, o: Observation, c: MappingClaim, g: seq<Grant>)
    requires w.s.sampleSize > 0
    ensures Step(w, DoObserve(h, o)) == w.(s := Observe(w.s, h, o).0)
    ensures Step(w, DoNextMapping([])) == w.(s := NextMapping(w.s, []).0)
    ensures var v := Step(w, DoFinishMapping(c, Commit, h, g));
      v.s == FinishMapping(w.s, c, Commit, h, g).0 && v.storage == w.storage
  {
    hide Observe, NextMapping, FinishMapping;
  }

  // The first three calls lead to a mapped chunk.
  lemma ExampleOpens() returns (w: World)
    ensures WInv(w) && Opened(w.s) && w.storage == map[] && Reach(EXAMPLE, 1, ExampleRun()) == Run(w, ExampleRun()[3..])
  {
    var ops, s := ExampleRun(), Start(EXAMPLE, 1);
    StartInv(EXAMPLE, 1);
    assert s.s == Create(EXAMPLE, 1) && s.storage == map[];
    hide WInv, Step, Opened, Observe, Create, NextMapping, FinishMapping, NewClaim, Start;
    var grants := [GrantOf(TURN, 0)];
    assert ops == [ops[0]] + ops[1..] && ops[1..] == [ops[1]] + ops[2..] && ops[2..] == [ops[2]] + ops[3..];
    RunStep(s, ops[0], ops[1..]);
    PlainSteps(s, PEER, REPORT, ExampleClaim(), grants);
    var u := Step(s, ops[0]);
    RunStep(u, ops[1], ops[2..]);
    PlainSteps(u, PEER, REPORT, ExampleClaim(), grants);
    var v := Step(u, ops[1]);
    RunStep(v, ops[2], ops[3..]);
    PlainSteps(v, PEER, REPORT, ExampleClaim(), grants);
    w := Step(v, ops[2]);
    ExampleMapped();
  }

  // A concrete run after which a valid sector has a write in flight.
  lemma SectorWrittenTwice()
    ensures var w := Reach(EXAMPLE, 1, ExampleRun()); 0 in w.s.valid && Writing(w, 2, 0) && !Settled(w)
  {
    hide WInv, Run, Reach, Writing, Settled, Opened, Grants, StepAcquire;
    var w := ExampleOpens();
    var r := Request(Write, 0, SECTOR_BYTES);
    assert ExampleRun()[3..] == [DoAcquire(1, r), DoAcquire(2, r), DoResolve(1, Success)];
    BothGranted(w, r);
    OverlappingWrites(w, 1, r, 2, r, 0);
  }

  lemma BothGranted(w: World, r: Request)
    requires Opened(w.s) && w.storage == map[] && r == Request(Write, 0, SECTOR_BYTES)
    ensures Grants(w, 1, r) && Grants(StepAcquire(w, 1, r), 2, r)
  {
    hide Range;
  }
}
