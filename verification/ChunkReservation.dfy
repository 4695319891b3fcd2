/**
 A Remote-Only reservation among the module's other calls: leases, activity,
 waits, evictions and stray terminal calls may come between its rounds, and between
 a round's request and its commit. It still maps one chunk per round until all are
 mapped.
 */
module ChunkReservation {
  import opened Options
  import opened SectorBitmap
  import opened ChunkState
  import opened ChunkInvariant
  import opened ChunkRuns
  import opened ChunkProgress

  // A round of the reservation with the calls that come before its commit, or another call.
  datatype Move = Play(turn: Turn, between: seq<Op>) | Other(op: Op)

  // Calls that leave the roster's reports, the Providers, the lifetime and the reservation's own claim alone. While a claim
  // is open, asking again is one of them.
  predicate Undisturbing(s: State, op: Op) {
    && !op.DoObserve? && !op.DoFail? && !op.DoQuiesce? && !op.DoDestroy?
    && (op.DoNextMapping? ==> s.mappingClaims != 0)
    && (op.DoFinishMapping? ==> s.mappingClaims == 0 || op.claim != s.activeClaim)
  }

  ghost predicate Undisturbed(w: World, ops: seq<Op>)
    requires WInv(w)
    decreases |ops|
  {
    ops == [] || (Undisturbing(w.s, ops[0]) && (StepKeeps(w, ops[0]); Undisturbed(Step(w, ops[0]), ops[1..])))
  }

  ghost function Moved(w: World, m: Move): (v: World)
    requires WInv(w)
    ensures WInv(v)
  {
    match m
    case Play(turn, between) => Played(w, turn, between)
    case Other(op) => StepKeeps(w, op); Step(w, op)
  }

  // Ask for a mapping, let other calls happen, and commit the grant.
  ghost function Played(w: World, turn: Turn, between: seq<Op>): (v: World)
    requires WInv(w)
    ensures WInv(v)
  {
    SampleSizePositive(w.s);
    StepKeeps(w, DoNextMapping(turn.draws));
    var v := Run(Step(w, DoNextMapping(turn.draws)), between);
    var r := NextMapping(w.s, turn.draws).1;
    if r.RequestMapping? then
      var finish := DoFinishMapping(r.claim, Commit, r.provider, [GrantOf(turn, r.chunk)]);
      StepKeeps(v, finish);
      Step(v, finish)
    else v
  }

  ghost function Carried(w: World, moves: seq<Move>): (v: World)
    requires WInv(w)
    ensures WInv(v)
    decreases |moves|
  {
    if moves == [] then w else Carried(Moved(w, moves[0]), moves[1..])
  }

  function Rounds(moves: seq<Move>): nat {
    if moves == [] then 0 else (if moves[0].Play? then 1 else 0) + Rounds(moves[1..])
  }

  // The move is a round that is granted usable memory backing no other chunk, amid undisturbing calls, or such a call.
  ghost predicate LawfulMove(w: World, m: Move)
    requires WInv(w)
  {
    match m
    case Play(turn, between) =>
      GoodTurn(w.s, turn) && (StepKeeps(w, DoNextMapping(turn.draws)); Undisturbed(Step(w, DoNextMapping(turn.draws)), between))
    case Other(op) => Undisturbing(w.s, op)
  }

  ghost predicate Lawful(w: World, moves: seq<Move>)
    requires WInv(w)
    decreases |moves|
  {
    moves == [] || (LawfulMove(w, moves[0]) && Lawful(Moved(w, moves[0]), moves[1..]))
  }

  // -------------------------------------------------------------- other calls

  // States that differ in leases, activity, validity, waits, the hot policy and the violation log only.
  ghost predicate Aside(s: State, t: State) {
    && Alike(s.chunks, t.chunks)
    && t == s.(chunks := t.chunks, leases := t.leases, lastLease := t.lastLease, valid := t.valid, hot := t.hot,
               invariants := t.invariants, latestInvariant := t.latestInvariant, waits := t.waits)
  }

  lemma AsideKeeps(s: State, t: State)
    requires Reserving(s) && Inv(t) && Aside(s, t)
    ensures Reserving(t) && t.usableCount == s.usableCount && |t.chunks| == |s.chunks|
  {
    hide Inv;
    AsideAggregate(s, t, |s.providers|);
  }

  lemma {:induction false} AsideAggregate(s: State, t: State, n: nat)
    requires Aside(s, t) && n <= |s.providers|
    ensures Aggregate(t, n) == Aggregate(s, n)
  {
    hide OwnedBy, Reconcile, Alike;
    if n > 0 {
      AsideAggregate(s, t, n - 1);
      AlikeOwned(s.chunks, t.chunks, s.providers[n - 1].handle);
    }
  }

  lemma ActivityAside(s: State, start: nat, count: nat, write: bool)
    ensures Aside(s, NoteActivity(s, start, count, write))
  {}

  lemma AcquireAside(s: State, home: nat, l: Lease, r: Request)
    ensures Aside(s, AcquireLease(s, home, l, r).0)
  {
    hide Range;
  }

  lemma ResolveAside(s: State, home: nat, l: Lease, outcome: Outcome)
    ensures Aside(s, ResolveLease(s, home, l, outcome).0)
  {
    hide Range;
  }

  lemma ReleaseAside(s: State, home: nat, l: Lease)
    ensures Aside(s, ReleaseLease(s, home, l).0)
  {
    LeaseChecked(s, home, l);
    hide CheckLease;
  }

  // Without backing no chunk is ever evicted, so every eviction claim is refused.
  lemma NoEviction(s: State, c: EvictionClaim)
    requires Inv(s) && s.mode.RemoteOnly?
    ensures CheckEviction(s, c) != Ok
  {
    hide Digest, Selection, Live, ChunksOk, ClaimsOk, CountersOk, BatchesOk, GrantsUnique, ValidityOk, DebitsOk;
    if i :| i in EvictedBy(s.chunks, c.id) {
      assert !s.chunks[i].phase.Evicting?;
    } else {
      assert EvictedBy(s.chunks, c.id) == {};
    }
  }

  lemma BeginAside(s: State, h: Handle, ids: seq<nat>, prior: EvictionClaim)
    requires s.mode.RemoteOnly?
    ensures BeginEviction(s, h, ids, prior).0 == s
  {
    hide SelectBatch, Close, Live, Digest, CheckEviction;
  }

  lemma EvictionAside(s: State, c: EvictionClaim, deadline: nat)
    requires Inv(s) && s.mode.RemoteOnly?
    ensures FinishEviction(s, c).0 == s && EnterWait(s, c, deadline).0 == s
  {
    hide Inv, CheckEviction, Drained, ResetMembers;
    NoEviction(s, c);
  }

  lemma PollAside(s: State, c: EvictionClaim, now: Option<nat>, deadline: nat)
    ensures Aside(s, PollWait(s, c, now, deadline).0)
  {
    hide CheckEviction, Drained;
  }

  lemma FinishAside(s: State, c: MappingClaim, action: FinishAction, h: Handle, grants: seq<Grant>)
    requires s.mappingClaims == 0 || c != s.activeClaim
    ensures FinishMapping(s, c, action, h, grants).0 == s
  {
    hide GrantsShaped, GrantAvailable, GrantMatches, Live, Digest;
  }

  lemma AskAside(s: State, draws: seq<nat>)
    requires s.sampleSize > 0 && s.mappingClaims != 0
    ensures NextMapping(s, draws).0 == s
  {
    hide SomePending, Eligible, Aggregate, FirstWanted, Choose, Live;
  }

  lemma OtherAside(w: World, op: Op)
    requires Inv(w.s) && w.s.mode.RemoteOnly? && w.s.sampleSize > 0 && Undisturbing(w.s, op)
    ensures Aside(w.s, Step(w, op).s)
  {
    hide AcquireLease, ResolveLease, ReleaseLease, FinishMapping, CheckEviction, Drained, Inv, NextMapping,
      NoteActivity, BeginEviction, FinishEviction, EnterWait, PollWait;
    match op
    case DoSetHot(_) =>
    case DoActivity(start, count, write) => ActivityAside(w.s, start, count, write);
    case DoNextMapping(draws) => AskAside(w.s, draws);
    case DoFinishMapping(c, action, h, grants) => FinishAside(w.s, c, action, h, grants);
    case DoBeginEviction(h, ids, prior) => BeginAside(w.s, h, ids, prior);
    case DoFinishEviction(c) => EvictionAside(w.s, c, 0);
    case DoEnterWait(c, deadline) => EvictionAside(w.s, c, deadline);
    case DoPollWait(k, now, deadline) => if k < |w.waiting| { PollAside(w.s, w.waiting[k], now, deadline); }
    case DoAcquire(home, r) => AcquireAside(w.s, home, StorageAt(w, home), r);
    case DoResolve(home, outcome) => ResolveAside(w.s, home, StorageAt(w, home), outcome);
    case DoRelease(home) => ReleaseAside(w.s, home, StorageAt(w, home));
  }

  // ------------------------------------------------------------------- rounds

  lemma MappingCalls(w: World, draws: seq<nat>, c: MappingClaim, h: Handle, grants: seq<Grant>)
    requires w.s.sampleSize > 0
    ensures Step(w, DoNextMapping(draws)).s == NextMapping(w.s, draws).0
    ensures Step(w, DoFinishMapping(c, Commit, h, grants)).s == FinishMapping(w.s, c, Commit, h, grants).0
  {
    hide NextMapping, FinishMapping;
  }

  lemma {:induction false} RunAside(w: World, ops: seq<Op>)
    requires WInv(w) && Inv(w.s) && w.s.mode.RemoteOnly? && Undisturbed(w, ops)
    ensures Aside(w.s, Run(w, ops).s) && Inv(Run(w, ops).s)
    decreases |ops|
  {
    hide WInv, Inv, Step, Undisturbing;
    if ops == [] {
      assert Aside(w.s, w.s);
    } else {
      SampleSizePositive(w.s);
      StepKeeps(w, ops[0]);
      InvOf(Step(w, ops[0]));
      OtherAside(w, ops[0]);
      RunAside(Step(w, ops[0]), ops[1..]);
    }
  }

  // The commit of a claim after other calls maps one chunk more and keeps the reservation covered.
  lemma CommitAmid(s: State, turn: Turn, p: nat, chunk: nat, t: State)
    requires Reserving(s) && s.usableCount < |s.chunks| && p < |s.providers|
    requires chunk < |s.chunks| && s.chunks[chunk].phase.Unmapped? && HandleWellFormed(s.providers[p].handle)
    requires Inv(t) && Aside(ClaimOpened(s, s.providers[p].handle, chunk), t) && Grantable(s, turn, s.providers[p].handle)
    ensures var h := s.providers[p].handle;
      var u := FinishMapping(t, NewClaim(s, h, chunk), Commit, h, [GrantOf(turn, chunk)]).0;
      Reserving(u) && u.usableCount == s.usableCount + 1 && |u.chunks| == |s.chunks|
  {
    hide FinishMapping, Digest, ChunksOk, ClaimsOk, CountersOk, BatchesOk, GrantsUnique, ValidityOk, ModeOk, DebitsOk,
      Available, MappingSet, Live;
    var h, g := s.providers[p].handle, GrantOf(turn, chunk);
    CommitAccepted(t, chunk, g);
    CommitShape(t, t.activeClaim, h, [g]);
    FinishMappingKeeps(t, t.activeClaim, Commit, h, [g]);
    var u := FinishMapping(t, t.activeClaim, Commit, h, [g]).0;
    forall i | 0 <= i < |s.providers|
      ensures if i == p then Available(u, i) + 1 >= Available(s, i) else Available(u, i) == Available(s, i)
    {
      AvailableAmid(s, u, p, chunk, i);
    }
    AggregateDrops(s, u, p, |s.providers|);
  }

  lemma AvailableAmid(s: State, u: State, p: nat, chunk: nat, i: nat)
    requires Inv(s) && u.providers == s.providers && p < |s.providers| && i < |s.providers|
    requires chunk < |s.chunks| == |u.chunks| && s.chunks[chunk].phase.Unmapped? && u.chunks[chunk].phase.Mapped?
    requires Alike(s.chunks[chunk := u.chunks[chunk]], u.chunks) && u.chunks[chunk].provider == s.providers[p].handle
    ensures if i == p then Available(u, i) + 1 >= Available(s, i) else Available(u, i) == Available(s, i)
  {
    hide Inv, Alike, OwnedBy, Reconcile;
    var t := s.(chunks := s.chunks[chunk := u.chunks[chunk]]);
    AvailableAfter(s, t, p, chunk, i);
    AlikeOwned(t.chunks, u.chunks, s.providers[i].handle);
  }

  // One round with other calls before its commit.
  lemma PlayAdvances(w: World, turn: Turn, between: seq<Op>)
    requires WInv(w) && Reserving(w.s) && w.s.usableCount < |w.s.chunks| && LawfulMove(w, Play(turn, between))
    ensures var t := Played(w, turn, between).s;
      Reserving(t) && |t.chunks| == |w.s.chunks| && t.usableCount == w.s.usableCount + 1
  {
    hide WInv, Inv, NextMapping, FinishMapping, Step, Aggregate, SomePending, Available, NewClaim, Grantable, Undisturbed, Aside;
    SampleSizePositive(w.s);
    var p, chunk := AsksWhileShort(w.s, turn.draws);
    var h := w.s.providers[p].handle;
    var v := Step(w, DoNextMapping(turn.draws));
    StepKeeps(w, DoNextMapping(turn.draws));
    MappingCalls(w, turn.draws, NO_CLAIM, NO_PROVIDER, []);
    InvOf(v);
    assert v.s == ClaimOpened(w.s, h, chunk);
    RunAside(v, between);
    var u := Run(v, between);
    SampleSizePositive(u.s);
    MappingCalls(u, [], NewClaim(w.s, h, chunk), h, [GrantOf(turn, chunk)]);
    SlotWellFormed(w.s, p);
    CommitAmid(w.s, turn, p, chunk, u.s);
  }

  lemma SlotWellFormed(s: State, p: nat)
    requires Inv(s) && p < |s.providers|
    ensures HandleWellFormed(s.providers[p].handle)
  {
    hide ChunksOk, ClaimsOk, CountersOk, BatchesOk, GrantsUnique, ValidityOk, DebitsOk, ModeOk;
  }

  // Whatever comes between the rounds and within them, each maps one chunk more, and the reservation is complete after exactly
  // as many rounds as chunks were missing.
  lemma {:induction false} ReservationCompletesAmid(w: World, moves: seq<Move>, draws: seq<nat>)
    requires WInv(w) && Reserving(w.s) && w.s.usableCount + Rounds(moves) <= |w.s.chunks| && Lawful(w, moves)
    ensures var t := Carried(w, moves).s;
      && |t.chunks| == |w.s.chunks| && t.usableCount == w.s.usableCount + Rounds(moves)
      && if t.usableCount == |t.chunks| then NextMapping(t, draws) == (t, MappingComplete)
         else NextMapping(t, draws).1.RequestMapping?
    decreases |moves|
  {
    hide WInv, NextMapping, Moved, Inv, Aggregate, LawfulMove, SomePending;
    if moves == [] {
      if w.s.usableCount == |w.s.chunks| { NextMappingComplete(w.s, draws); } else { var p, chunk := AsksWhileShort(w.s, draws); }
    } else {
      MoveAdvances(w, moves[0]);
      ReservationCompletesAmid(Moved(w, moves[0]), moves[1..], draws);
    }
  }

  lemma MoveAdvances(w: World, m: Move)
    requires WInv(w) && Reserving(w.s) && LawfulMove(w, m) && (m.Play? ==> w.s.usableCount < |w.s.chunks|)
    ensures var t := Moved(w, m).s;
      Reserving(t) && |t.chunks| == |w.s.chunks| && t.usableCount == w.s.usableCount + if m.Play? then 1 else 0
  {
    hide WInv, NextMapping, Played, Inv, Aggregate, GoodTurn, SomePending, Undisturbing, Undisturbed, Step, Aside;
    SampleSizePositive(w.s);
    match m
    case Play(turn, between) => PlayAdvances(w, turn, between);
    case Other(op) =>
      StepKeeps(w, op);
      OtherAside(w, op);
      InvOf(Step(w, op));
      AsideKeeps(w.s, Step(w, op).s);
  }

  lemma InvOf(w: World)
    requires WInv(w)
    ensures Inv(w.s)
  {}
}
