/**
 The engine that owns the transactions: it counts those that have registered and
 not yet left, and refuses to be destroyed while the count is not zero. It takes no
 lock. A start reads whether the engine is initialized and then registers; a destroy
 reads the same flag, then the counter, and then clears the flag. These steps, the
 steps of all transactions and those of other destroys interleave freely.
 */
module TransactionEngine {
  import opened IoTransaction

  datatype Attempt = Attempt(request: Request, allocation: int, storage: bool, locked: int)

  datatype Slot =
    | Passed(attempt: Attempt)                          // found the engine initialized, not yet registered
    | Refusing(calls: seq<Call>, log: seq<Call>)        // a refused start with calls still to make
    | Live(world: World)

  datatype Engine = Engine(
    initialized: bool,
    mode: Mode,
    active: nat,
    slots: seq<Slot>,
    asking: nat,     // destroys that found the flag set and have not read the counter
    clearing: nat)   // destroys that found the counter zero and have not cleared the flag

  datatype Op =
    | DoBegin(attempt: Attempt)
    | DoRegister(slot: nat)
    | DoRefuse(slot: nat)
    | DoProgress(slot: nat, move: Move)
    | DoAsk
    | DoCheck
    | DoClear

  datatype Answer = Destroyed | Busy | NotInitialized

  // Whether a destroy goes on after a step, or what it returns.
  datatype Reply = GoesOn | Returns(answer: Answer)

  function FreshEngine(mode: Mode): Engine { Engine(true, mode, 0, [], 0, 0) }

  function AskReply(initialized: bool): Reply { if initialized then GoesOn else Returns(NotInitialized) }

  function CheckReply(active: nat): Reply { if active != 0 then Returns(Busy) else GoesOn }

  predicate Possible(e: Engine, op: Op) {
    match op
    case DoBegin(_) => true
    case DoRegister(i) => i < |e.slots| && e.slots[i].Passed?
    case DoRefuse(i) => i < |e.slots| && e.slots[i].Refusing? && e.slots[i].calls != []
    case DoProgress(i, m) => i < |e.slots| && e.slots[i].Live? && Enabled(e.slots[i].world, m)
    case DoAsk => true
    case DoCheck => e.asking > 0
    case DoClear => e.clearing > 0
  }

  // What the engine's counter becomes when a transaction makes a call.
  function Counted(active: nat, call: Call): nat { if call.Left? && active > 0 then active - 1 else active }

  function Registered(e: Engine, i: nat): Engine
    requires i < |e.slots| && e.slots[i].Passed?
  {
    var a := e.slots[i].attempt;
    match SetUp(true, e.mode, a.request, a.allocation, a.storage, a.locked)
    case Rejected(calls) => e.(active := e.active + 1, slots := e.slots[i := Refusing(calls, [])])
    case Ready(world) => e.(active := e.active + 1, slots := e.slots[i := Live(world)])
  }

  function Perform(e: Engine, op: Op): Engine
    requires Possible(e, op)
  {
    match op
    case DoBegin(a) =>
      e.(slots := e.slots + [if e.initialized then Passed(a)
                             else Refusing(SetUp(false, e.mode, a.request, a.allocation, a.storage, a.locked).calls, [])])
    case DoRegister(i) => Registered(e, i)
    case DoRefuse(i) =>
      var s := e.slots[i];
      e.(active := Counted(e.active, s.calls[0]), slots := e.slots[i := Refusing(s.calls[1..], s.log + [s.calls[0]])])
    case DoProgress(i, m) =>
      var w := e.slots[i].world;
      e.(active := if m.Close? then Counted(e.active, w.closing[0]) else e.active, slots := e.slots[i := Live(Step(w, m))])
    case DoAsk => if AskReply(e.initialized).GoesOn? then e.(asking := e.asking + 1) else e
    case DoCheck =>
      e.(asking := e.asking - 1, clearing := if CheckReply(e.active).GoesOn? then e.clearing + 1 else e.clearing)
    case DoClear => e.(initialized := false, clearing := e.clearing - 1)
  }

  // ------------------------------------------------------------------- invariant

  // The transaction has registered and has not left.
  predicate Present(s: Slot) {
    match s
    case Passed(_) => false
    case Refusing(calls, _) => Left in calls
    case Live(w) => Left !in w.log
  }

  function PresentCount(slots: seq<Slot>): nat {
    if slots == [] then 0 else PresentCount(slots[..|slots| - 1]) + if Present(slots[|slots| - 1]) then 1 else 0
  }

  // Calls of a refused start that come once each, the completion before the engine is left.
  ghost predicate RefusalOk(calls: seq<Call>, log: seq<Call>) {
    && (forall i, j :: 0 <= i < j < |calls| ==> !(calls[i].Left? && calls[j].Left?))
    && (forall i :: 0 <= i < |calls| && calls[i].Completed? ==> forall j :: 0 <= j < i ==> !calls[j].Left?)
    && ((exists i :: 0 <= i < |log| && log[i].Completed?) || (exists i :: 0 <= i < |calls| && calls[i].Completed?))
    && (Left in log ==> Left !in calls && exists i :: 0 <= i < |log| && log[i].Completed?)
  }

  ghost predicate SlotOk(s: Slot) {
    match s
    case Passed(_) => true
    case Refusing(calls, log) => RefusalOk(calls, log)
    case Live(w) => Inv(w)
  }

  ghost predicate EngineInv(e: Engine) {
    && e.active == PresentCount(e.slots)
    && forall i :: 0 <= i < |e.slots| ==> SlotOk(e.slots[i])
  }

  lemma {:induction false} CountUpdate(slots: seq<Slot>, i: nat, s: Slot)
    requires i < |slots|
    ensures PresentCount(slots[i := s]) ==
      PresentCount(slots) + (if Present(s) then 1 else 0) - (if Present(slots[i]) then 1 else 0)
  {
    hide Present;
    var n := |slots| - 1;
    if i == n {
      assert slots[i := s][..n] == slots[..n];
    } else {
      assert slots[i := s][..n] == slots[..n][i := s];
      CountUpdate(slots[..n], i, s);
    }
  }

  lemma CountAppend(slots: seq<Slot>, s: Slot)
    ensures PresentCount(slots + [s]) == PresentCount(slots) + if Present(s) then 1 else 0
  {
    assert (slots + [s])[..|slots|] == slots;
  }

  lemma {:induction false} SomePresent(slots: seq<Slot>)
    ensures PresentCount(slots) != 0 <==> exists i :: 0 <= i < |slots| && Present(slots[i])
  {
    hide Present;
    if slots != [] {
      var n := |slots| - 1;
      SomePresent(slots[..n]);
      if PresentCount(slots[..n]) != 0 {
        var i :| 0 <= i < n && Present(slots[..n][i]);
        assert Present(slots[i]);
      } else {
        assert forall i :: 0 <= i < n ==> slots[i] == slots[..n][i];
      }
    }
  }

  // ---------------------------------------------------------------------- steps

  lemma RefusedSetUp(initialized: bool, mode: Mode, a: Attempt)
    requires SetUp(initialized, mode, a.request, a.allocation, a.storage, a.locked).Rejected?
    ensures var calls := SetUp(initialized, mode, a.request, a.allocation, a.storage, a.locked).calls;
      RefusalOk(calls, []) && (Left in calls <==> initialized)
  {
    RefusedStartSettles(initialized, mode, a.request, a.allocation, a.storage, a.locked);
  }

  lemma RegisterKeeps(e: Engine, i: nat)
    requires EngineInv(e) && i < |e.slots| && e.slots[i].Passed?
    ensures EngineInv(Registered(e, i))
  {
    hide SetUp, RefusalOk, Inv;
    var a, v := e.slots[i].attempt, Registered(e, i);
    CountUpdate(e.slots, i, v.slots[i]);
    match SetUp(true, e.mode, a.request, a.allocation, a.storage, a.locked)
    case Rejected(calls) => RefusedSetUp(true, e.mode, a);
    case Ready(w) => ReadyStarts(e.mode, a);
  }

  lemma ReadyStarts(mode: Mode, a: Attempt)
    requires SetUp(true, mode, a.request, a.allocation, a.storage, a.locked).Ready?
    ensures var w := SetUp(true, mode, a.request, a.allocation, a.storage, a.locked).world; Inv(w) && w.log == []
  {
    hide Inv;
    StartInv(mode, a.request.direction, a.request.generation);
  }

  lemma RefusalStep(calls: seq<Call>, log: seq<Call>)
    requires RefusalOk(calls, log) && calls != []
    ensures RefusalOk(calls[1..], log + [calls[0]])
    ensures (Left in calls[1..]) <==> Left in calls && !calls[0].Left?
  {
    var rest, more := calls[1..], log + [calls[0]];
    assert more[|log|] == calls[0];
    if i :| 0 <= i < |log| && log[i].Completed? { assert more[i].Completed?; }
    if i :| 0 <= i < |calls| && calls[i].Completed? { assert i > 0 ==> rest[i - 1].Completed?; }
    assert calls == [calls[0]] + rest;
  }

  lemma ProgressStep(w: World, m: Move)
    requires Inv(w) && Enabled(w, m)
    ensures Inv(Step(w, m))
    ensures var leaves := m.Close? && w.closing[0].Left?;
      (leaves ==> Left !in w.log) && (Left in Step(w, m).log <==> Left in w.log || leaves)
  {
    StepKeeps(w, m);
    hide Inv;
    if m.Close? { LeavesOnce(w); }
    if m.Advance? { NextLogs(w, w.threads[m.thread][0], w.threads[m.thread][1..], m.outcome); }
  }

  lemma NextLogs(w: World, effect: Effect, rest: Todo, outcome: int)
    ensures var v := Next(w, effect, rest, outcome).0; Left in v.log <==> Left in w.log
  {
    hide Begin, End;
  }

  lemma LeavesOnce(w: World)
    requires Inv(w) && w.closing != []
    ensures w.closing[0].Left? ==> Left !in w.log
  {
    hide ClaimsOk, ThreadsOk, AnswerOk;
    var all := w.log + w.closing;
    assert w.closing[0] == all[|w.log|];
    assert all[1] == CLOSING[0] && all[2] == CLOSING[1] && all[3] == CLOSING[2];
  }

  lemma BeginKeeps(e: Engine, a: Attempt)
    requires EngineInv(e)
    ensures EngineInv(Perform(e, DoBegin(a)))
  {
    hide Inv, SetUp, RefusalOk, PresentCount;
    var v := Perform(e, DoBegin(a));
    CountAppend(e.slots, v.slots[|e.slots|]);
    if !e.initialized {
      ShutDown(e.mode, a);
      RefusedSetUp(false, e.mode, a);
    }
  }

  lemma RefuseKeeps(e: Engine, i: nat)
    requires EngineInv(e) && Possible(e, DoRefuse(i))
    ensures EngineInv(Perform(e, DoRefuse(i)))
  {
    hide Inv, RefusalOk, PresentCount;
    CountUpdate(e.slots, i, Perform(e, DoRefuse(i)).slots[i]);
    assert SlotOk(e.slots[i]);
    RefusalStep(e.slots[i].calls, e.slots[i].log);
    PresentSome(e.slots, i);
  }

  lemma ProgressKeeps(e: Engine, i: nat, m: Move)
    requires EngineInv(e) && Possible(e, DoProgress(i, m))
    ensures EngineInv(Perform(e, DoProgress(i, m)))
  {
    hide Inv, Step, RefusalOk, PresentCount;
    CountUpdate(e.slots, i, Perform(e, DoProgress(i, m)).slots[i]);
    assert SlotOk(e.slots[i]);
    ProgressStep(e.slots[i].world, m);
    PresentSome(e.slots, i);
  }

  lemma PerformKeeps(e: Engine, op: Op)
    requires EngineInv(e) && Possible(e, op)
    ensures EngineInv(Perform(e, op))
  {
    hide SlotOk, PresentCount, Registered;
    match op
    case DoBegin(a) => BeginKeeps(e, a);
    case DoRegister(i) => RegisterKeeps(e, i);
    case DoRefuse(i) => RefuseKeeps(e, i);
    case DoProgress(i, m) => ProgressKeeps(e, i, m);
    case DoAsk =>
    case DoCheck =>
    case DoClear =>
  }

  lemma ShutDown(mode: Mode, a: Attempt)
    ensures SetUp(false, mode, a.request, a.allocation, a.storage, a.locked).Rejected?
  {}

  lemma PresentSome(slots: seq<Slot>, i: nat)
    requires i < |slots|
    ensures Present(slots[i]) ==> PresentCount(slots) > 0
  {
    SomePresent(slots);
  }

  // ------------------------------------------------------------------------ runs

  ghost predicate PossibleOps(e: Engine, ops: seq<Op>)
    decreases |ops|
  {
    ops == [] || (Possible(e, ops[0]) && PossibleOps(Perform(e, ops[0]), ops[1..]))
  }

  ghost function RunEngine(e: Engine, ops: seq<Op>): Engine
    requires PossibleOps(e, ops)
    decreases |ops|
  {
    if ops == [] then e else RunEngine(Perform(e, ops[0]), ops[1..])
  }

  lemma {:induction false} EngineRunKeeps(e: Engine, ops: seq<Op>)
    requires EngineInv(e) && PossibleOps(e, ops)
    ensures EngineInv(RunEngine(e, ops))
    decreases |ops|
  {
    hide EngineInv, Perform;
    if ops != [] {
      PerformKeeps(e, ops[0]);
      EngineRunKeeps(Perform(e, ops[0]), ops[1..]);
    }
  }

  // The request of a slot has been answered.
  predicate Answered(s: Slot) {
    match s
    case Passed(_) => false
    case Refusing(_, log) => exists i :: 0 <= i < |log| && log[i].Completed?
    case Live(w) => exists i :: 0 <= i < |w.log| && w.log[i].Completed?
  }

  ghost predicate NobodyPresent(e: Engine) {
    forall i :: 0 <= i < |e.slots| ==> !Present(e.slots[i])
  }

  // After every interleaving a destroy that reads the counter returns BUSY exactly if some transaction has registered and not
  // left by then. When it goes on, every transaction that has left by then has been answered, and the live ones have given
  // their storage back before.
  lemma DestroyRefusedWhilePresent(mode: Mode, ops: seq<Op>)
    requires PossibleOps(FreshEngine(mode), ops)
    ensures var e := RunEngine(FreshEngine(mode), ops);
      && (CheckReply(e.active) == Returns(Busy) <==> !NobodyPresent(e))
      && (CheckReply(e.active).GoesOn? ==>
            forall i :: 0 <= i < |e.slots| && (e.slots[i].Live? || (e.slots[i].Refusing? && Left in e.slots[i].log)) ==>
              Answered(e.slots[i]) && (e.slots[i].Live? ==> Released in e.slots[i].world.log))
  {
    hide Perform, Possible, Present;
    EngineRunKeeps(FreshEngine(mode), ops);
    var e := RunEngine(FreshEngine(mode), ops);
    SomePresent(e.slots);
    if CheckReply(e.active).GoesOn? {
      forall i | 0 <= i < |e.slots| && (e.slots[i].Live? || (e.slots[i].Refusing? && Left in e.slots[i].log))
        ensures Answered(e.slots[i]) && (e.slots[i].Live? ==> Released in e.slots[i].world.log)
      {
        assert !Present(e.slots[i]) && SlotOk(e.slots[i]);
        GoneIsAnswered(e.slots[i]);
      }
    }
  }

  lemma GoneIsAnswered(s: Slot)
    requires SlotOk(s) && !Present(s) && (s.Live? || (s.Refusing? && Left in s.log))
    ensures Answered(s) && (s.Live? ==> Released in s.world.log)
  {
    hide ClaimsOk, ThreadsOk, AnswerOk;
    if s.Live? {
      var w := s.world;
      var all := w.log + w.closing;
      assert all[1] == CLOSING[0] && all[2] == CLOSING[1] && all[3] == CLOSING[2];
      assert w.log[0] == all[0] && w.log[1] == all[1];
    }
  }

  // ------------------------------------------------------------- destroying

  // The call at j is a destroy reading the counter while no transaction is present.
  ghost predicate EmptyCheck(e: Engine, ops: seq<Op>, j: int) {
    0 <= j < |ops| && ops[j].DoCheck? && PossibleOps(e, ops[..j]) && NobodyPresent(RunEngine(e, ops[..j]))
  }

  // The flag is cleared only after some destroy has read the counter while no transaction was present.
  lemma {:induction false} ClearFollowsEmptyCheck(e: Engine, ops: seq<Op>)
    requires EngineInv(e) && e.clearing == 0 && PossibleOps(e, ops) && Possible(RunEngine(e, ops), DoClear)
    ensures exists j :: EmptyCheck(e, ops, j)
    decreases |ops|
  {
    hide EngineInv, Perform, NobodyPresent;
    if ops != [] {
      PerformKeeps(e, ops[0]);
      if ops[0].DoCheck? && e.active == 0 {
        ZeroIsNobody(e);
        assert ops[..0] == [];
        assert EmptyCheck(e, ops, 0);
      } else {
        NotYetClearing(e, ops[0]);
        ClearFollowsEmptyCheck(Perform(e, ops[0]), ops[1..]);
        var j :| EmptyCheck(Perform(e, ops[0]), ops[1..], j);
        assert ops[..j + 1] == [ops[0]] + ops[1..][..j];
        assert EmptyCheck(e, ops, j + 1);
      }
    }
  }

  lemma ZeroIsNobody(e: Engine)
    requires EngineInv(e)
    ensures e.active == 0 <==> NobodyPresent(e)
  {
    hide Present, SlotOk;
    SomePresent(e.slots);
  }

  lemma NotYetClearing(e: Engine, op: Op)
    requires Possible(e, op) && e.clearing == 0 && !(op.DoCheck? && e.active == 0)
    ensures Perform(e, op).clearing == 0
  {
    hide SetUp, Step, Counted, Enabled;
  }

  // The flag is set until some destroy clears it, and never again.
  lemma {:induction false} FlagIsFinal(e: Engine, ops: seq<Op>)
    requires PossibleOps(e, ops)
    ensures RunEngine(e, ops).initialized <==> e.initialized && DoClear !in ops
    decreases |ops|
  {
    hide Perform, Possible;
    if ops != [] {
      FlagStep(e, ops[0]);
      FlagIsFinal(Perform(e, ops[0]), ops[1..]);
      assert ops == [ops[0]] + ops[1..];
    }
  }

  lemma FlagStep(e: Engine, op: Op)
    requires Possible(e, op)
    ensures Perform(e, op).initialized <==> e.initialized && op != DoClear
  {
    hide SetUp, Step, Counted, Enabled;
  }

  // ------------------------------------------------------------- after destroying

  // The slot has read the flag as set and not yet registered, or is present.
  predicate CouldArrive(e: Engine, i: int) { 0 <= i < |e.slots| && (e.slots[i].Passed? || Present(e.slots[i])) }

  // A slot that is past both stays so, and a start that finds the flag clear never gets there.
  lemma GoneStep(e: Engine, op: Op, i: nat)
    requires EngineInv(e) && Possible(e, op) && !CouldArrive(e, i)
    requires i < |e.slots| || (op.DoBegin? ==> !e.initialized)
    ensures !CouldArrive(Perform(e, op), i) && |e.slots| <= |Perform(e, op).slots|
  {
    hide SetUp, Step, RefusalOk, Inv, PresentCount;
    match op
    case DoBegin(a) =>
      if i == |e.slots| {
        ShutDown(e.mode, a);
        RefusedSetUp(false, e.mode, a);
      }
    case DoRegister(_) =>
    case DoRefuse(k) =>
      assert SlotOk(e.slots[k]);
      RefusalStep(e.slots[k].calls, e.slots[k].log);
    case DoProgress(k, m) =>
      assert SlotOk(e.slots[k]);
      ProgressStep(e.slots[k].world, m);
    case DoAsk =>
    case DoCheck =>
    case DoClear =>
  }

  lemma {:induction false} GoneRun(e: Engine, ops: seq<Op>, i: nat)
    requires EngineInv(e) && PossibleOps(e, ops) && !CouldArrive(e, i) && (i < |e.slots| || !e.initialized)
    ensures !CouldArrive(RunEngine(e, ops), i)
    decreases |ops|
  {
    hide EngineInv, Perform, Possible, CouldArrive;
    if ops != [] {
      GoneStep(e, ops[0], i);
      FlagStep(e, ops[0]);
      PerformKeeps(e, ops[0]);
      GoneRun(Perform(e, ops[0]), ops[1..], i);
    }
  }

  // Once a destroy has cleared the flag, over every further interleaving, a transaction is present only if at that moment it
  // already was, or its start had read the flag as set and had not yet registered.
  lemma ArrivalsAfterDestroy(mode: Mode, ops: seq<Op>, later: seq<Op>)
    requires PossibleOps(FreshEngine(mode), ops)
    requires var e := RunEngine(FreshEngine(mode), ops); Possible(e, DoClear) && PossibleOps(Perform(e, DoClear), later)
    ensures var e := RunEngine(FreshEngine(mode), ops);
      var v := RunEngine(Perform(e, DoClear), later);
      && !v.initialized && (v.active != 0 ==> exists i :: CouldArrive(e, i))
      && forall i :: 0 <= i < |v.slots| && Present(v.slots[i]) ==> CouldArrive(e, i)
  {
    EngineRunKeeps(FreshEngine(mode), ops);
    var e := RunEngine(FreshEngine(mode), ops);
    LateArrivals(e, later);
  }

  lemma LateArrivals(e: Engine, later: seq<Op>)
    requires EngineInv(e) && Possible(e, DoClear) && PossibleOps(Perform(e, DoClear), later)
    ensures var v := RunEngine(Perform(e, DoClear), later);
      && !v.initialized && (v.active != 0 ==> exists i :: CouldArrive(e, i))
      && forall i :: 0 <= i < |v.slots| && Present(v.slots[i]) ==> CouldArrive(e, i)
  {
    hide SlotOk, Present, PresentCount, CouldArrive;
    var c := Perform(e, DoClear);
    var v := RunEngine(c, later);
    FlagIsFinal(c, later);
    EngineRunKeeps(c, later);
    SomePresent(v.slots);
    forall i | 0 <= i < |v.slots| && Present(v.slots[i]) ensures CouldArrive(e, i) {
      SameSlots(e, c, i);
      PresentCouldArrive(v, i);
      if !CouldArrive(e, i) { GoneRun(c, later, i); }
    }
  }

  lemma SameSlots(e: Engine, c: Engine, i: int)
    requires c.slots == e.slots
    ensures CouldArrive(c, i) <==> CouldArrive(e, i)
  {}

  lemma PresentCouldArrive(e: Engine, i: int)
    requires 0 <= i < |e.slots| && Present(e.slots[i])
    ensures CouldArrive(e, i)
  {}

  // No further interleaving makes a transaction present.
  ghost predicate StaysEmpty(e: Engine) {
    forall later :: PossibleOps(e, later) ==> NobodyPresent(RunEngine(e, later))
  }

  // A destroyed engine stays without transactions if and only if, when the flag is cleared, none is present and no start is
  // between reading the flag and registering.
  lemma EmptyAfterDestroyExactly(e: Engine)
    requires EngineInv(e) && Possible(e, DoClear)
    ensures StaysEmpty(Perform(e, DoClear)) <==> forall i :: !CouldArrive(e, i)
  {
    hide EngineInv;
    var c := Perform(e, DoClear);
    if i :| CouldArrive(e, i) {
      PerformKeeps(e, DoClear);
      SomeoneArrives(e, c, i);
    } else {
      forall later | PossibleOps(c, later) ensures NobodyPresent(RunEngine(c, later)) { LateArrivals(e, later); }
    }
  }

  lemma SomeoneArrives(e: Engine, c: Engine, i: int)
    requires EngineInv(c) && c.slots == e.slots && CouldArrive(e, i)
    ensures !StaysEmpty(c)
  {
    hide Present, EngineInv, Registered;
    if e.slots[i].Passed? {
      PassedArrives(c, i);
      RegisteredFrame(c, i);
      PrependStep(c, DoRegister(i), []);
      assert [DoRegister(i)] + [] == [DoRegister(i)];
      assert !NobodyPresent(RunEngine(c, [DoRegister(i)]));
    } else {
      assert PossibleOps(c, []) && !NobodyPresent(RunEngine(c, []));
    }
  }

  // The same seen from the counter read: whoever is present after the flag is cleared had read the flag and not registered
  // when the counter was read, or its start began before the flag was cleared.
  lemma ArrivalsAfterCheck(e: Engine, during: seq<Op>, later: seq<Op>)
    requires EngineInv(e) && Possible(e, DoCheck) && CheckReply(e.active).GoesOn?
    requires PossibleOps(Perform(e, DoCheck), during)
    requires var u := RunEngine(Perform(e, DoCheck), during); Possible(u, DoClear) && PossibleOps(Perform(u, DoClear), later)
    ensures var u := RunEngine(Perform(e, DoCheck), during);
      var v := RunEngine(Perform(u, DoClear), later);
      && (forall i :: 0 <= i < |v.slots| && Present(v.slots[i]) ==>
            if i < |e.slots| then e.slots[i].Passed? else i < |u.slots|)
      && ((forall k :: 0 <= k < |during| ==> !during[k].DoBegin?) ==> |u.slots| == |e.slots|)
  {
    hide SlotOk, Present, PresentCount;
    PerformKeeps(e, DoCheck);
    ZeroIsNobody(e);
    var c := Perform(e, DoCheck);
    var u := RunEngine(c, during);
    EngineRunKeeps(c, during);
    SlotsGrow(c, during);
    LateArrivals(u, later);
    var v := RunEngine(Perform(u, DoClear), later);
    forall i | 0 <= i < |v.slots| && Present(v.slots[i])
      ensures if i < |e.slots| then e.slots[i].Passed? else i < |u.slots|
    {
      assert CouldArrive(u, i);
      if i < |e.slots| && !e.slots[i].Passed? { GoneRun(c, during, i); }
    }
  }

  lemma {:induction false} SlotsGrow(e: Engine, ops: seq<Op>)
    requires PossibleOps(e, ops)
    ensures |e.slots| <= |RunEngine(e, ops).slots|
    ensures (forall k :: 0 <= k < |ops| ==> !ops[k].DoBegin?) ==> |RunEngine(e, ops).slots| == |e.slots|
    decreases |ops|
  {
    hide Perform, Possible;
    if ops != [] {
      SlotsStep(e, ops[0]);
      SlotsGrow(Perform(e, ops[0]), ops[1..]);
      assert forall k :: 0 <= k < |ops[1..]| ==> ops[1..][k] == ops[k + 1];
    }
  }

  lemma SlotsStep(e: Engine, op: Op)
    requires Possible(e, op)
    ensures |Perform(e, op).slots| == |e.slots| + if op.DoBegin? then 1 else 0
  {
    hide SetUp, Step, Counted, Enabled;
  }

  // A start that has read the flag as set is not stopped: it registers, with a destroyed engine too.
  lemma PassedArrives(e: Engine, i: nat)
    requires EngineInv(e) && i < |e.slots| && e.slots[i].Passed?
    ensures var v := Perform(e, DoRegister(i)); Present(v.slots[i]) && v.active == e.active + 1
  {
    hide SetUp, RefusalOk, Inv, PresentCount;
    var a := e.slots[i].attempt;
    match SetUp(true, e.mode, a.request, a.allocation, a.storage, a.locked)
    case Rejected(calls) => RefusedSetUp(true, e.mode, a);
    case Ready(w) => ReadyStarts(e.mode, a);
  }

  // Whatever is asked: a start that comes between a destroy's counter read and its clearing of the flag registers, and the
  // destroy succeeds nevertheless.
  lemma StartWithinDestroy(mode: Mode, a: Attempt)
    ensures var ops := [DoAsk, DoCheck, DoBegin(a), DoRegister(0), DoClear];
      && PossibleOps(FreshEngine(mode), ops)
      && var e := RunEngine(FreshEngine(mode), ops);
         !e.initialized && e.active == 1 && |e.slots| == 1 && Present(e.slots[0])
  {
    hide Perform, Possible, Present, PresentCount;
    var e := FreshEngine(mode);
    WithinDestroy(mode, a);
    RegistersWithin(e.(slots := [Passed(a)], clearing := 1), a);
    var v := Perform(e.(slots := [Passed(a)], clearing := 1), DoRegister(0));
    PrependStep(v, DoClear, []);
    PrependStep(e.(slots := [Passed(a)], clearing := 1), DoRegister(0), [DoClear] + []);
    PrependStep(e.(clearing := 1), DoBegin(a), [DoRegister(0)] + ([DoClear] + []));
    PrependStep(e.(asking := 1), DoCheck, [DoBegin(a)] + ([DoRegister(0)] + ([DoClear] + [])));
    PrependStep(e, DoAsk, [DoCheck] + ([DoBegin(a)] + ([DoRegister(0)] + ([DoClear] + []))));
    assert [DoAsk, DoCheck, DoBegin(a), DoRegister(0), DoClear] ==
      [DoAsk] + ([DoCheck] + ([DoBegin(a)] + ([DoRegister(0)] + ([DoClear] + []))));
  }

  lemma WithinDestroy(mode: Mode, a: Attempt)
    ensures var e := FreshEngine(mode);
      && Possible(e, DoAsk) && Perform(e, DoAsk) == e.(asking := 1)
      && Possible(e.(asking := 1), DoCheck) && Perform(e.(asking := 1), DoCheck) == e.(clearing := 1)
      && Possible(e.(clearing := 1), DoBegin(a))
      && Perform(e.(clearing := 1), DoBegin(a)) == e.(slots := [Passed(a)], clearing := 1)
  {
    hide SetUp, Step, Counted, Enabled, Registered;
    assert [] + [Passed(a)] == [Passed(a)];
  }

  lemma RegistersWithin(e: Engine, a: Attempt)
    requires e.slots == [Passed(a)] && e.active == 0 && e.clearing == 1
    ensures Possible(e, DoRegister(0))
    ensures var v := Perform(e, DoRegister(0));
      && Possible(v, DoClear) && v.active == 1 && |v.slots| == 1 && Present(v.slots[0])
      && Perform(v, DoClear) == v.(initialized := false, clearing := 0)
  {
    hide Registered, Present, SetUp, Step, Counted, Enabled, SlotOk, PresentCount;
    OnePassed(e, a);
    PassedArrives(e, 0);
    RegisteredFrame(e, 0);
  }

  lemma OnePassed(e: Engine, a: Attempt)
    requires e.slots == [Passed(a)] && e.active == 0
    ensures EngineInv(e)
  {
    assert PresentCount(e.slots[..0]) == 0;
  }

  lemma PrependStep(e: Engine, op: Op, ops: seq<Op>)
    requires Possible(e, op) && PossibleOps(Perform(e, op), ops)
    ensures PossibleOps(e, [op] + ops) && RunEngine(e, [op] + ops) == RunEngine(Perform(e, op), ops)
  {
    hide Possible, Perform;
    assert ([op] + ops)[1..] == ops;
  }

  lemma RegisteredFrame(e: Engine, i: nat)
    requires i < |e.slots| && e.slots[i].Passed?
    ensures var v := Registered(e, i);
      |v.slots| == |e.slots| && v.initialized == e.initialized && v.asking == e.asking && v.clearing == e.clearing
  {
    hide SetUp;
  }

  // ------------------------------------------------------------- in-place form

  // The step is the one by which a transaction leaves.
  ghost predicate Leaves(e: Engine, op: Op) {
    && Possible(e, op)
    && match op
       case DoRefuse(i) => e.slots[i].calls[0].Left?
       case DoProgress(i, m) => m.Close? && e.slots[i].world.closing[0].Left?
       case _ => false
  }

  // A transaction that leaves was counted, so the counter never runs below zero.
  lemma LeavingWasCounted(e: Engine, op: Op)
    requires EngineInv(e) && Leaves(e, op)
    ensures e.active > 0 && Perform(e, op).active == e.active - 1
  {
    hide Inv, Step, RefusalOk, PresentCount;
    match op
    case DoRefuse(i) =>
      PresentSome(e.slots, i);
    case DoProgress(i, m) =>
      assert SlotOk(e.slots[i]);
      ProgressStep(e.slots[i].world, m);
      PresentSome(e.slots, i);
  }

  class LiveEngine {
    var initialized: bool
    var mode: Mode
    var active: nat
    ghost var slots: seq<Slot>
    ghost var asking: nat
    ghost var clearing: nat

    ghost function Model(): Engine
      reads this
    {
      Engine(initialized, mode, active, slots, asking, clearing)
    }

    constructor (mode: Mode)
      ensures Model() == FreshEngine(mode) && EngineInv(Model())
    {
      initialized, this.mode, active := true, mode, 0;
      slots, asking, clearing := [], 0, 0;
    }

    // A start reads whether the engine is initialized, and only that.
    method Begin(ghost attempt: Attempt) returns (passed: bool)
      requires EngineInv(Model())
      modifies `slots
      ensures Model() == Perform(old(Model()), DoBegin(attempt)) && EngineInv(Model()) && passed == initialized
    {
      PerformKeeps(Model(), DoBegin(attempt));
      hide EngineInv;
      slots := Perform(Model(), DoBegin(attempt)).slots;
      return initialized;
    }

    method Enter(ghost slot: nat)
      requires EngineInv(Model()) && Possible(Model(), DoRegister(slot))
      modifies `active, `slots
      ensures Model() == Perform(old(Model()), DoRegister(slot)) && EngineInv(Model())
    {
      PerformKeeps(Model(), DoRegister(slot));
      hide EngineInv, SetUp;
      slots := Perform(Model(), DoRegister(slot)).slots;
      active := active + 1;
    }

    // The decrement is unguarded.
    method Leave(ghost op: Op)
      requires EngineInv(Model()) && Leaves(Model(), op)
      modifies `active, `slots
      ensures Model() == Perform(old(Model()), op) && EngineInv(Model())
    {
      PerformKeeps(Model(), op);
      LeavingWasCounted(Model(), op);
      hide EngineInv, Step;
      slots := Perform(Model(), op).slots;
      active := active - 1;
    }

    // The three steps of a destroy.
    method DestroyAsks() returns (reply: Reply)
      requires EngineInv(Model())
      modifies `asking
      ensures reply == AskReply(initialized) && Model() == Perform(old(Model()), DoAsk) && EngineInv(Model())
    {
      if !initialized { return Returns(NotInitialized); }
      asking := asking + 1;
      return GoesOn;
    }

    method DestroyChecks() returns (reply: Reply)
      requires EngineInv(Model()) && Possible(Model(), DoCheck)
      modifies `asking, `clearing
      ensures reply == CheckReply(active) && Model() == Perform(old(Model()), DoCheck) && EngineInv(Model())
      ensures reply.GoesOn? <==> NobodyPresent(Model())
    {
      ZeroIsNobody(Model());
      asking := asking - 1;
      if active != 0 { return Returns(Busy); }
      clearing := clearing + 1;
      return GoesOn;
    }

    method DestroyClears() returns (reply: Reply)
      requires EngineInv(Model()) && Possible(Model(), DoClear)
      modifies `initialized, `clearing
      ensures reply == Returns(Destroyed) && Model() == Perform(old(Model()), DoClear) && EngineInv(Model())
    {
      initialized := false;
      clearing := clearing - 1;
      return Returns(Destroyed);
    }
  }
}
