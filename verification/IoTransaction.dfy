/**
 One remote I/O transaction under every interleaving of its events. An event
 begins with a locked decision, runs its adapter calls outside the lock and ends
 with a locked finish; a call an adapter refuses is handled inside the event that
 made it. Any number of events may be in flight, among them duplicates and stale
 ones.
 */
module IoTransaction {
  import opened IoPolicy

  datatype Mode = BackedStrict | BackedRemoteFirst | RemoteOnly
  datatype Direction = Read | Write

  function KindOf(mode: Mode, direction: Direction): Kind {
    if mode.RemoteOnly? then if direction.Write? then RemoteOnlyWrite else RemoteOnlyRead
    else if direction.Read? then RemoteRead
    else if mode.BackedStrict? then StrictWrite
    else RemoteFirstWrite
  }

  datatype Transaction = Transaction(
    mode: Mode, direction: Direction, generation: nat, policy: Policy, activeEvents: nat, backingRetries: nat,
    backingClaim: bool, resultClaim: bool, transportClaim: bool, reported: bool, settling: bool)

  datatype Event =
    | BackingDone(status: int)
    | RdmaResult(generation: nat, status: int, cancelled: bool)
    | TransportReleased(generation: nat)

  // What a thread has still to do. Enter and Finish are the locked sections of an event.
  datatype Effect =
    | Report | Degraded | MarkLocalOnly | SubmitBacking | Complete(status: int)
    | Enter(event: Event) | Finish
    | Prepare | StartBacking | SubmitRdma

  type Todo = seq<Effect>

  // Calls whose order and number matter to the outside.
  datatype Call = Completed(status: int) | Released | Left | Settled

  datatype World = World(
    tx: Transaction,
    threads: seq<Todo>,
    closing: seq<Call>,     // what the settling thread has still to call
    log: seq<Call>,
    stuck: bool)            // a finish found the transaction idle but not releasable

  // ------------------------------------------------------------- locked sections

  // Whether the violation is the first one, which alone is reported.
  function NoteInvariant(t: Transaction): (Transaction, Todo) {
    if t.reported then (t, []) else (t.(reported := true), [Report])
  }

  function ActionTodo(action: Action, status: int): Todo {
    (if action.degraded then [Degraded] else []) + (if action.localOnly then [MarkLocalOnly] else [])
    + (if action.submitLocal then [SubmitBacking] else [])
    + (if action.succeed then [Complete(0)] else if action.fail then [Complete(status)] else [])
  }

  predicate Retries(t: Transaction, status: int) {
    status != 0 && t.mode.BackedRemoteFirst? && t.direction.Write? && t.backingRetries == 0
  }

  function BeginBacking(t: Transaction, status: int): (Transaction, Todo) {
    if !t.backingClaim then NoteInvariant(t)
    else if Retries(t, status) then (t.(backingRetries := t.backingRetries + 1), [SubmitBacking])
    else
      var (p, action) := LocalComplete(t.policy, status);
      (t.(policy := p, backingClaim := false), ActionTodo(action, ReportedStatus(p)))
  }

  function BeginResult(t: Transaction, generation: nat, status: int, cancelled: bool): (Transaction, Todo) {
    if generation != t.generation then (t, [])
    else if !t.resultClaim then NoteInvariant(t)
    else
      var (p, action) := if cancelled then CancelRemote(t.policy, generation, status)
                         else RemoteComplete(t.policy, generation, status);
      var u := t.(policy := p, resultClaim := false);
      var todo := ActionTodo(action, ReportedStatus(p));
      if !action.submitLocal then (u, todo)
      else if t.backingClaim then
        var (v, report) := NoteInvariant(u);
        (v, report + todo)
      else (u.(backingClaim := true), todo)
  }

  function BeginReleased(t: Transaction, generation: nat): (Transaction, Todo) {
    if generation != t.generation then (t, [])
    else if !t.transportClaim then NoteInvariant(t)
    else (t.(transportClaim := false), [])
  }

  function Begin(t: Transaction, e: Event): (Transaction, Todo) {
    var u := t.(activeEvents := t.activeEvents + 1);
    match e
    case BackingDone(status) => BeginBacking(u, status)
    case RdmaResult(generation, status, cancelled) => BeginResult(u, generation, status, cancelled)
    case TransportReleased(generation) => BeginReleased(u, generation)
  }

  datatype Ending = Nothing | Unreleasable | Settle

  function End(t: Transaction): (Transaction, Ending) {
    var u := t.(activeEvents := if t.activeEvents == 0 then 0 else t.activeEvents - 1);
    if u.activeEvents != 0 || u.backingClaim || u.resultClaim || u.transportClaim || u.settling then (u, Nothing)
    else if !Releasable(u.policy) then (u, Unreleasable)
    else (u.(settling := true), Settle)
  }

  // ----------------------------------------------------------------------- steps

  datatype Move =
    | Arrive(event: Event)              // an adapter reports an event
    | Advance(thread: nat, outcome: int)   // a thread does its next effect; adapters answer with `outcome`
    | Close                             // the settling thread makes its next call

  const CLOSING: seq<Call> := [Released, Left, Settled]

  function FailedSubmission(t: Transaction, status: int): Todo {
    [Enter(TransportReleased(t.generation)), Enter(RdmaResult(t.generation, status, false))]
  }

  function Next(w: World, effect: Effect, rest: Todo, outcome: int): (World, Todo) {
    match effect
    case Report => (w, rest)
    case Degraded => (w, rest)
    case MarkLocalOnly => (w, rest)
    case Complete(status) => (w.(log := w.log + [Completed(status)]), rest)
    case SubmitBacking => (w, if outcome != 0 then [Enter(BackingDone(outcome))] + rest else rest)
    case StartBacking => (w, if w.tx.backingClaim then [SubmitBacking] + rest else rest)
    case SubmitRdma => (w, if outcome != 0 then FailedSubmission(w.tx, outcome) + rest else rest)
    case Prepare => (w, [StartBacking] + (if outcome != 0 then FailedSubmission(w.tx, outcome) else [SubmitRdma]) + rest)
    case Enter(e) =>
      var (t, todo) := Begin(w.tx, e);
      (w.(tx := t), todo + [Finish] + rest)
    case Finish =>
      var (t, ending) := End(w.tx);
      (w.(tx := t, stuck := w.stuck || ending.Unreleasable?,
          closing := if ending.Settle? then w.closing + CLOSING else w.closing),
       rest)
  }

  // An adapter may call as long as the transaction has not been given up for release.
  predicate Enabled(w: World, m: Move) {
    match m
    case Arrive(_) => !w.tx.settling
    case Advance(i, _) => i < |w.threads| && w.threads[i] != []
    case Close => w.closing != []
  }

  function Step(w: World, m: Move): World
    requires Enabled(w, m)
  {
    match m
    case Arrive(e) =>
      var (t, todo) := Begin(w.tx, e);
      w.(tx := t, threads := w.threads + [todo + [Finish]])
    case Advance(i, outcome) =>
      var (v, todo) := Next(w, w.threads[i][0], w.threads[i][1..], outcome);
      v.(threads := v.threads[i := todo])
    case Close => w.(log := w.log + [w.closing[0]], closing := w.closing[1..])
  }

  // The transaction once set up: one event in flight, the start itself.
  function Start(mode: Mode, direction: Direction, generation: nat): World {
    var kind := KindOf(mode, direction);
    World(Transaction(mode, direction, generation, Init(kind, generation), 1, 0, IsBackedWrite(kind), true, true, false, false),
          [[Prepare, Finish]], [], [], false)
  }

  // -------------------------------------------------------------------- invariant

  function Ends(todo: Todo): nat {
    if todo == [] then 0 else (if todo[0].Finish? then 1 else 0) + Ends(todo[1..])
  }

  function Answers(todo: Todo): nat {
    if todo == [] then 0 else (if todo[0].Complete? then 1 else 0) + Answers(todo[1..])
  }

  function TotalEnds(threads: seq<Todo>): nat {
    if threads == [] then 0 else TotalEnds(threads[..|threads| - 1]) + Ends(threads[|threads| - 1])
  }

  function TotalAnswers(threads: seq<Todo>): nat {
    if threads == [] then 0 else TotalAnswers(threads[..|threads| - 1]) + Answers(threads[|threads| - 1])
  }

  // A completion status agrees with what the copies achieved.
  predicate Truthful(p: Policy, status: int) { p.requestComplete && (status == 0 <==> Succeeded(p)) }

  ghost predicate TodoOk(p: Policy, todo: Todo) {
    && (todo != [] ==> todo[|todo| - 1].Finish?)
    && forall k :: 0 <= k < |todo| && todo[k].Complete? ==> Truthful(p, todo[k].status)
  }

  ghost predicate ThreadsOk(w: World) {
    forall i :: 0 <= i < |w.threads| ==> TodoOk(w.tx.policy, w.threads[i])
  }

  ghost predicate ClaimsOk(t: Transaction) {
    && Sound(t.policy) && t.policy.kind == KindOf(t.mode, t.direction) && t.policy.generation == t.generation
    && t.backingClaim == t.policy.localPending && t.resultClaim == t.policy.remotePending
  }

  // The calls made so far and still to come.
  ghost predicate LogOk(w: World) {
    && (w.tx.settling ==>
          && w.tx.activeEvents == 0 && !w.tx.backingClaim && !w.tx.resultClaim && !w.tx.transportClaim
          && |w.log + w.closing| == 4 && (w.log + w.closing)[0].Completed? && (w.log + w.closing)[1..] == CLOSING
          && |w.log| >= 1 && Truthful(w.tx.policy, w.log[0].status))
    && (!w.tx.settling ==>
          && w.closing == [] && |w.log| <= 1
          && (w.log != [] ==> w.log[0].Completed? && Truthful(w.tx.policy, w.log[0].status)))
  }

  // The answer is logged or still to be given by exactly one thread once the request is decided.
  ghost predicate AnswerOk(w: World) {
    !w.tx.settling ==> TotalAnswers(w.threads) + |w.log| == if w.tx.policy.requestComplete then 1 else 0
  }

  ghost predicate Idle(t: Transaction) {
    t.activeEvents == 0 && !t.backingClaim && !t.resultClaim && !t.transportClaim
  }

  ghost predicate Inv(w: World) {
    && ClaimsOk(w.tx) && w.tx.activeEvents == TotalEnds(w.threads) && ThreadsOk(w) && LogOk(w) && AnswerOk(w)
    && !w.stuck && (Idle(w.tx) ==> w.tx.settling)
  }

  // ------------------------------------------------------------- counting effects

  lemma {:induction false} EndsConcat(a: Todo, b: Todo)
    ensures Ends(a + b) == Ends(a) + Ends(b) && Answers(a + b) == Answers(a) + Answers(b)
  {
    if a == [] {
      assert a + b == b;
    } else {
      assert (a + b)[1..] == a[1..] + b;
      EndsConcat(a[1..], b);
    }
  }

  lemma {:induction false} TotalsUpdate(threads: seq<Todo>, i: nat, todo: Todo)
    requires i < |threads|
    ensures TotalEnds(threads[i := todo]) == TotalEnds(threads) - Ends(threads[i]) + Ends(todo)
    ensures TotalAnswers(threads[i := todo]) == TotalAnswers(threads) - Answers(threads[i]) + Answers(todo)
  {
    var n := |threads| - 1;
    var after := threads[i := todo];
    if i == n {
      assert after[..n] == threads[..n];
    } else {
      assert after[..n] == threads[..n][i := todo];
      TotalsUpdate(threads[..n], i, todo);
    }
  }

  lemma TotalsAppend(threads: seq<Todo>, todo: Todo)
    ensures TotalEnds(threads + [todo]) == TotalEnds(threads) + Ends(todo)
    ensures TotalAnswers(threads + [todo]) == TotalAnswers(threads) + Answers(todo)
  {
    assert (threads + [todo])[..|threads|] == threads;
  }

  lemma {:induction false} SomeEnd(todo: Todo)
    requires todo != [] && todo[|todo| - 1].Finish?
    ensures Ends(todo) > 0
  {
    if |todo| > 1 { SomeEnd(todo[1..]); }
  }

  lemma {:induction false} NoThreads(p: Policy, threads: seq<Todo>)
    requires TotalEnds(threads) == 0 && forall i :: 0 <= i < |threads| ==> TodoOk(p, threads[i])
    ensures TotalAnswers(threads) == 0 && forall i :: 0 <= i < |threads| ==> threads[i] == []
  {
    if threads != [] {
      var n := |threads| - 1;
      NoThreads(p, threads[..n]);
      if threads[n] != [] { SomeEnd(threads[n]); }
    }
  }

  lemma {:induction false} ThreadEnds(threads: seq<Todo>, i: nat)
    requires i < |threads|
    ensures Ends(threads[i]) <= TotalEnds(threads)
  {
    if i < |threads| - 1 { ThreadEnds(threads[..|threads| - 1], i); }
  }

  // ------------------------------------------------------------------ one event

  // What the locked beginning of an event may change, with the work it leaves to its thread.
  ghost predicate Begins(t: Transaction, u: Transaction, todo: Todo) {
    && ClaimsOk(u) && u.mode == t.mode && u.direction == t.direction && u.generation == t.generation
    && u.activeEvents == t.activeEvents + 1 && u.settling == t.settling
    && (t.policy.requestComplete ==> u.policy.requestComplete && (Succeeded(u.policy) <==> Succeeded(t.policy)))
    && Ends(todo) == 0
    && Answers(todo) == (if u.policy.requestComplete && !t.policy.requestComplete then 1 else 0)
    && forall k :: 0 <= k < |todo| && todo[k].Complete? ==> Truthful(u.policy, todo[k].status)
  }

  lemma ActionEffects(action: Action, status: int)
    requires !(action.succeed && action.fail)
    ensures Ends(ActionTodo(action, status)) == 0
    ensures Answers(ActionTodo(action, status)) == if action.succeed || action.fail then 1 else 0
    ensures forall k :: 0 <= k < |ActionTodo(action, status)| && ActionTodo(action, status)[k].Complete? ==>
      if action.succeed then ActionTodo(action, status)[k].status == 0
      else action.fail && ActionTodo(action, status)[k].status == status
  {
    var a: Todo := if action.degraded then [Degraded] else [];
    var b: Todo := if action.localOnly then [MarkLocalOnly] else [];
    var c: Todo := if action.submitLocal then [SubmitBacking] else [];
    var d: Todo := if action.succeed then [Complete(0)] else if action.fail then [Complete(status)] else [];
    EndsConcat(a, b);
    EndsConcat(a + b, c);
    EndsConcat(a + b + c, d);
  }

  lemma NotingBegins(t: Transaction)
    requires ClaimsOk(t)
    ensures var (u, todo) := NoteInvariant(t);
      && u == t.(reported := true) && Ends(todo) == 0 && Answers(todo) == 0
      && forall k :: 0 <= k < |todo| ==> todo[k].Report?
  {}

  lemma BackingBegins(t: Transaction, status: int)
    requires ClaimsOk(t)
    ensures var (u, todo) := BeginBacking(t.(activeEvents := t.activeEvents + 1), status); Begins(t, u, todo)
  {
    hide LocalComplete, Sound, ActionTodo, Succeeded, Decided;
    var v := t.(activeEvents := t.activeEvents + 1);
    if !t.backingClaim {
      NotingBegins(v);
    } else if Retries(v, status) {
      assert Ends([SubmitBacking]) == 0 && Answers([SubmitBacking]) == 0;
    } else {
      LocalDecides(t.policy, status);
      var (p, action) := LocalComplete(t.policy, status);
      ActionEffects(action, ReportedStatus(p));
    }
  }

  lemma ResultBegins(t: Transaction, generation: nat, status: int, cancelled: bool)
    requires ClaimsOk(t)
    ensures var (u, todo) := BeginResult(t.(activeEvents := t.activeEvents + 1), generation, status, cancelled); Begins(t, u, todo)
  {
    hide CancelRemote, RemoteComplete, Sound, ActionTodo, Succeeded, Decided;
    var v := t.(activeEvents := t.activeEvents + 1);
    if generation != t.generation {
    } else if !t.resultClaim {
      NotingBegins(v);
    } else {
      RemoteDecides(t.policy, status, cancelled);
      var (p, action) := if cancelled then CancelRemote(t.policy, generation, status) else RemoteComplete(t.policy, generation, status);
      ActionEffects(action, ReportedStatus(p));
    }
  }

  lemma BeginBegins(t: Transaction, e: Event)
    requires ClaimsOk(t)
    ensures var (u, todo) := Begin(t, e); Begins(t, u, todo)
  {
    hide BeginBacking, BeginResult, Begins;
    match e
    case BackingDone(status) => BackingBegins(t, status);
    case RdmaResult(generation, status, cancelled) => ResultBegins(t, generation, status, cancelled);
    case TransportReleased(generation) => ReleasedBegins(t, generation);
  }

  lemma ReleasedBegins(t: Transaction, generation: nat)
    requires ClaimsOk(t)
    ensures var (u, todo) := BeginReleased(t.(activeEvents := t.activeEvents + 1), generation); Begins(t, u, todo)
  {
    hide Sound, Succeeded, Decided;
    NotingBegins(t.(activeEvents := t.activeEvents + 1));
  }

  // -------------------------------------------------------------- every step

  lemma StartInv(mode: Mode, direction: Direction, generation: nat)
    ensures Inv(Start(mode, direction, generation))
  {
    var w := Start(mode, direction, generation);
    InitSound(KindOf(mode, direction), generation);
    TotalsAppend([], [Prepare, Finish]);
    assert [] + [[Prepare, Finish]] == w.threads;
    assert Ends([Prepare, Finish]) == 1 && Answers([Prepare, Finish]) == 0 by {
      EndsConcat([Prepare], [Finish]);
      assert [Prepare] + [Finish] == [Prepare, Finish];
    }
  }

  // A thread with work left keeps the transaction from settling.
  lemma BusyThread(w: World, i: nat)
    requires Inv(w) && i < |w.threads| && w.threads[i] != []
    ensures !w.tx.settling && w.tx.activeEvents >= Ends(w.threads[i]) > 0
  {
    hide ClaimsOk, LogOk, AnswerOk;
    assert TodoOk(w.tx.policy, w.threads[i]);
    SomeEnd(w.threads[i]);
    ThreadEnds(w.threads, i);
    LogMeans(w);
  }

  lemma LogMeans(w: World)
    requires LogOk(w)
    ensures w.tx.settling ==> w.tx.activeEvents == 0
  {}

  // The policy moves on without contradicting answers already given.
  ghost predicate Carries(p: Policy, q: Policy) {
    p.requestComplete ==> q.requestComplete && (Succeeded(q) <==> Succeeded(p))
  }

  lemma TodoCarries(p: Policy, q: Policy, todo: Todo)
    requires TodoOk(p, todo) && Carries(p, q)
    ensures TodoOk(q, todo)
  {
    hide Succeeded;
  }

  lemma ArriveKeeps(w: World, e: Event)
    requires Inv(w) && !w.tx.settling
    ensures Inv(Step(w, Arrive(e)))
  {
    hide Begin, Succeeded, Sound, Decided;
    var v := Step(w, Arrive(e));
    var (t, todo) := Begin(w.tx, e);
    BeginBegins(w.tx, e);
    EndsConcat(todo, [Finish]);
    TotalsAppend(w.threads, todo + [Finish]);
    forall i | 0 <= i < |v.threads| ensures TodoOk(v.tx.policy, v.threads[i]) {
      if i < |w.threads| { TodoCarries(w.tx.policy, t.policy, w.threads[i]); }
    }
  }

  // A thread's list changes; the transaction and the counts follow.
  lemma AdvanceKeeps(w: World, v: World, i: nat, todo: Todo)
    requires Inv(w) && i < |w.threads| && w.threads[i] != [] && v == v.(threads := w.threads[i := todo])
    requires ClaimsOk(v.tx) && Carries(w.tx.policy, v.tx.policy) && !v.stuck
    requires TodoOk(v.tx.policy, todo)
    requires v.tx.activeEvents == w.tx.activeEvents - Ends(w.threads[i]) + Ends(todo)
    requires Idle(v.tx) ==> v.tx.settling
    requires LogOk(v)
    requires !v.tx.settling ==>
      TotalAnswers(w.threads) - Answers(w.threads[i]) + Answers(todo) + |v.log| == (if v.tx.policy.requestComplete then 1 else 0)
    ensures Inv(v)
  {
    hide ClaimsOk, LogOk, Succeeded, Idle, Carries;
    TotalsUpdate(w.threads, i, todo);
    forall j | 0 <= j < |v.threads| ensures TodoOk(v.tx.policy, v.threads[j]) {
      if j != i { TodoCarries(w.tx.policy, v.tx.policy, w.threads[j]); }
    }
  }

  lemma TailOk(p: Policy, todo: Todo)
    requires TodoOk(p, todo) && todo != []
    ensures TodoOk(p, todo[1..]) && (!todo[0].Finish? ==> todo[1..] != [])
  {
    hide Truthful;
  }

  lemma {:induction false} Unmarked(todo: Todo)
    requires forall k :: 0 <= k < |todo| ==> !todo[k].Complete? && !todo[k].Finish?
    ensures Ends(todo) == 0 && Answers(todo) == 0
  {
    if todo != [] { Unmarked(todo[1..]); }
  }

  // Effects that put further effects in front of the rest, none of them a finish or an answer.
  lemma PrependKeeps(w: World, i: nat, more: Todo)
    requires Inv(w) && i < |w.threads| && w.threads[i] != []
    requires !w.threads[i][0].Finish? && !w.threads[i][0].Complete?
    requires forall k :: 0 <= k < |more| ==> !more[k].Complete? && !more[k].Finish?
    ensures Inv(w.(threads := w.threads[i := more + w.threads[i][1..]]))
  {
    hide ClaimsOk, Truthful;
    BusyThread(w, i);
    Unmarked(more);
    TailOk(w.tx.policy, w.threads[i]);
    var todo := more + w.threads[i][1..];
    EndsConcat(more, w.threads[i][1..]);
    AdvanceKeeps(w, w.(threads := w.threads[i := todo]), i, todo);
  }

  lemma CompleteKeeps(w: World, i: nat)
    requires Inv(w) && i < |w.threads| && w.threads[i] != [] && w.threads[i][0].Complete?
    ensures Inv(w.(threads := w.threads[i := w.threads[i][1..]], log := w.log + [Completed(w.threads[i][0].status)]))
  {
    hide ClaimsOk, Succeeded;
    BusyThread(w, i);
    TailOk(w.tx.policy, w.threads[i]);
    var v := w.(threads := w.threads[i := w.threads[i][1..]], log := w.log + [Completed(w.threads[i][0].status)]);
    ThreadAnswers(w.threads, i);
    AdvanceKeeps(w, v, i, w.threads[i][1..]);
  }

  lemma {:induction false} ThreadAnswers(threads: seq<Todo>, i: nat)
    requires i < |threads|
    ensures Answers(threads[i]) <= TotalAnswers(threads)
  {
    if i < |threads| - 1 { ThreadAnswers(threads[..|threads| - 1], i); }
  }

  lemma EnterKeeps(w: World, i: nat)
    requires Inv(w) && i < |w.threads| && w.threads[i] != [] && w.threads[i][0].Enter?
    ensures var (t, todo) := Begin(w.tx, w.threads[i][0].event);
      Inv(w.(tx := t, threads := w.threads[i := todo + [Finish] + w.threads[i][1..]]))
  {
    hide Begin, Succeeded, Sound, Decided;
    BusyThread(w, i);
    var rest := w.threads[i][1..];
    var (t, todo) := Begin(w.tx, w.threads[i][0].event);
    BeginBegins(w.tx, w.threads[i][0].event);
    TailOk(w.tx.policy, w.threads[i]);
    TodoCarries(w.tx.policy, t.policy, rest);
    EndsConcat(todo, [Finish]);
    EndsConcat(todo + [Finish], rest);
    AdvanceKeeps(w, w.(tx := t, threads := w.threads[i := todo + [Finish] + rest]), i, todo + [Finish] + rest);
  }

  // The last event to finish finds the request complete and settles; no other does.
  lemma FinishKeeps(w: World, i: nat)
    requires Inv(w) && i < |w.threads| && w.threads[i] != [] && w.threads[i][0].Finish?
    ensures var v := Next(w, Finish, w.threads[i][1..], 0).0; Inv(v.(threads := w.threads[i := w.threads[i][1..]]))
  {
    hide Succeeded, Decided;
    BusyThread(w, i);
    TailOk(w.tx.policy, w.threads[i]);
    var rest := w.threads[i][1..];
    var (t, ending) := End(w.tx);
    var v := Next(w, Finish, rest, 0).0.(threads := w.threads[i := rest]);
    if Idle(t) {
      QuietIsReleasable(w.tx.policy);
      TotalsUpdate(w.threads, i, rest);
      forall j | 0 <= j < |v.threads| ensures TodoOk(v.tx.policy, v.threads[j]) {
        if j != i { assert v.threads[j] == w.threads[j]; }
      }
      NoThreads(w.tx.policy, v.threads);
      assert |w.log| == 1;
      assert (w.log + CLOSING)[1..] == CLOSING;
    }
    AdvanceKeeps(w, v, i, rest);
  }

  lemma CloseKeeps(w: World)
    requires Inv(w) && w.closing != []
    ensures Inv(Step(w, Close))
  {
    hide ClaimsOk, Truthful;
    var v := Step(w, Close);
    assert v.log + v.closing == w.log + w.closing;
  }

  lemma StepKeeps(w: World, m: Move)
    requires Inv(w) && Enabled(w, m)
    ensures Inv(Step(w, m))
  {
    hide Inv, Begin, End;
    match m
    case Arrive(e) => ArriveKeeps(w, e);
    case Close => CloseKeeps(w);
    case Advance(i, outcome) => EffectKeeps(w, i, outcome);
  }

  lemma EffectKeeps(w: World, i: nat, outcome: int)
    requires Inv(w) && i < |w.threads| && w.threads[i] != []
    ensures Inv(Step(w, Advance(i, outcome)))
  {
    hide Inv, Begin, End;
    var rest := w.threads[i][1..];
    assert [] + rest == rest;
    match w.threads[i][0]
    case Complete(status) => CompleteKeeps(w, i);
    case Enter(e) => EnterKeeps(w, i);
    case Finish => FinishKeeps(w, i);
    case SubmitBacking => PrependKeeps(w, i, if outcome != 0 then [Enter(BackingDone(outcome))] else []);
    case StartBacking => PrependKeeps(w, i, if w.tx.backingClaim then [SubmitBacking] else []);
    case SubmitRdma => PrependKeeps(w, i, if outcome != 0 then FailedSubmission(w.tx, outcome) else []);
    case Prepare => PrependKeeps(w, i, [StartBacking] + if outcome != 0 then FailedSubmission(w.tx, outcome) else [SubmitRdma]);
    case _ => PrependKeeps(w, i, []);
  }

  // ------------------------------------------------------------------------ runs

  ghost predicate PossibleRun(w: World, ms: seq<Move>)
    decreases |ms|
  {
    ms == [] || (Enabled(w, ms[0]) && PossibleRun(Step(w, ms[0]), ms[1..]))
  }

  ghost function Run(w: World, ms: seq<Move>): World
    requires PossibleRun(w, ms)
    decreases |ms|
  {
    if ms == [] then w else Run(Step(w, ms[0]), ms[1..])
  }

  lemma {:induction false} RunKeeps(w: World, ms: seq<Move>)
    requires Inv(w) && PossibleRun(w, ms)
    ensures Inv(Run(w, ms))
    decreases |ms|
  {
    hide Inv, Step;
    if ms != [] {
      StepKeeps(w, ms[0]);
      RunKeeps(Step(w, ms[0]), ms[1..]);
    }
  }

  // In every interleaving the request is completed at most once, truthfully and with a nonzero status on error, then
  // released at most once, then settled at most once; the transaction is never found idle but not releasable.
  lemma SafeInEveryRun(mode: Mode, direction: Direction, generation: nat, ms: seq<Move>)
    requires PossibleRun(Start(mode, direction, generation), ms)
    ensures var w := Run(Start(mode, direction, generation), ms);
      && !w.stuck
      && (w.log == [] || exists status :: w.log <= [Completed(status)] + CLOSING && Truthful(w.tx.policy, status))
  {
    hide Run, Step;
    StartInv(mode, direction, generation);
    RunKeeps(Start(mode, direction, generation), ms);
    var w := Run(Start(mode, direction, generation), ms);
    if w.log != [] {
      var status := w.log[0].status;
      if w.tx.settling {
        assert w.log + w.closing == [Completed(status)] + CLOSING;
      } else {
        assert w.log == [Completed(status)];
      }
    }
  }

  // Once no event is in flight and the claims are gone, the request has been completed, released and settled, each
  // exactly once and in that order, with status zero exactly when what the mode promises has succeeded.
  lemma SettlesWhenQuiet(mode: Mode, direction: Direction, generation: nat, ms: seq<Move>)
    requires PossibleRun(Start(mode, direction, generation), ms)
    requires var w := Run(Start(mode, direction, generation), ms);
      && (forall i :: 0 <= i < |w.threads| ==> w.threads[i] == []) && w.closing == []
      && !w.tx.backingClaim && !w.tx.resultClaim && !w.tx.transportClaim
    ensures var w := Run(Start(mode, direction, generation), ms);
      exists status :: w.log == [Completed(status)] + CLOSING && (status == 0 <==> Succeeded(w.tx.policy))
  {
    hide Run, Step, Succeeded;
    StartInv(mode, direction, generation);
    RunKeeps(Start(mode, direction, generation), ms);
    var w := Run(Start(mode, direction, generation), ms);
    QuietThreads(w.threads);
    assert w.log == [Completed(w.log[0].status)] + CLOSING;
  }

  lemma {:induction false} QuietThreads(threads: seq<Todo>)
    requires forall i :: 0 <= i < |threads| ==> threads[i] == []
    ensures TotalEnds(threads) == 0
  {
    if threads != [] { QuietThreads(threads[..|threads| - 1]); }
  }

  // ------------------------------------------------------------------- termination

  function Weight(e: Effect): nat {
    match e
    case Enter(BackingDone(_)) => 6
    case Enter(TransportReleased(_)) => 4
    case Enter(RdmaResult(_, _, _)) => 16
    case SubmitBacking => 8
    case StartBacking => 9
    case SubmitRdma => 22
    case Prepare => 33
    case _ => 1
  }

  function TodoWeight(todo: Todo): nat {
    if todo == [] then 0 else Weight(todo[0]) + TodoWeight(todo[1..])
  }

  function Work(threads: seq<Todo>): nat {
    if threads == [] then 0 else Work(threads[..|threads| - 1]) + TodoWeight(threads[|threads| - 1])
  }

  function Pending(w: World): nat { |w.closing| + RetryWeight(w.tx) + if w.tx.settling then 0 else 4 }

  // What is left to do in flight; the one retry a write may make counts in advance.
  function Remaining(w: World): nat {
    Work(w.threads) + Pending(w)
  }

  lemma {:induction false} WeightConcat(a: Todo, b: Todo)
    ensures TodoWeight(a + b) == TodoWeight(a) + TodoWeight(b)
  {
    if a == [] {
      assert a + b == b;
    } else {
      assert (a + b)[1..] == a[1..] + b;
      WeightConcat(a[1..], b);
    }
  }

  lemma {:induction false} WorkUpdate(threads: seq<Todo>, i: nat, todo: Todo)
    requires i < |threads|
    ensures Work(threads[i := todo]) == Work(threads) - TodoWeight(threads[i]) + TodoWeight(todo)
  {
    var n := |threads| - 1;
    var after := threads[i := todo];
    if i == n {
      assert after[..n] == threads[..n];
    } else {
      assert after[..n] == threads[..n][i := todo];
      WorkUpdate(threads[..n], i, todo);
    }
  }

  lemma ActionWeight(action: Action, status: int)
    ensures TodoWeight(ActionTodo(action, status)) <= 3 + if action.submitLocal then 8 else 0
  {
    var a: Todo := if action.degraded then [Degraded] else [];
    var b: Todo := if action.localOnly then [MarkLocalOnly] else [];
    var c: Todo := if action.submitLocal then [SubmitBacking] else [];
    var d: Todo := if action.succeed then [Complete(0)] else if action.fail then [Complete(status)] else [];
    WeightConcat(a, b);
    WeightConcat(a + b, c);
    WeightConcat(a + b + c, d);
  }

  function RetryWeight(t: Transaction): nat { if t.backingRetries == 0 then 10 else 0 }

  lemma BackingWeight(t: Transaction, status: int)
    requires ClaimsOk(t)
    ensures var (u, todo) := BeginBacking(t, status);
      u.settling == t.settling && TodoWeight(todo) + 1 + RetryWeight(u) < 6 + RetryWeight(t)
  {
    hide LocalComplete, ActionTodo, Sound;
    if t.backingClaim && !Retries(t, status) {
      LocalDecides(t.policy, status);
      var (p, action) := LocalComplete(t.policy, status);
      ActionWeight(action, ReportedStatus(p));
    }
  }

  lemma ResultWeight(t: Transaction, generation: nat, status: int, cancelled: bool)
    ensures var (u, todo) := BeginResult(t, generation, status, cancelled);
      u.settling == t.settling && u.backingRetries == t.backingRetries && TodoWeight(todo) <= 12
  {
    hide CancelRemote, RemoteComplete, ActionTodo;
    var (p, action) := if cancelled then CancelRemote(t.policy, generation, status) else RemoteComplete(t.policy, generation, status);
    var todo := ActionTodo(action, ReportedStatus(p));
    ActionWeight(action, ReportedStatus(p));
    WeightConcat([Report], todo);
    assert [] + todo == todo;
  }

  // Beginning an event leaves less to do than the event itself counted for.
  lemma BeginWeight(t: Transaction, e: Event)
    requires ClaimsOk(t)
    ensures var (u, todo) := Begin(t, e);
      u.settling == t.settling && TodoWeight(todo) + 1 + RetryWeight(u) < Weight(Enter(e)) + RetryWeight(t)
  {
    hide BeginBacking, BeginResult, Sound, Succeeded;
    var u := t.(activeEvents := t.activeEvents + 1);
    match e
    case BackingDone(status) => BackingWeight(u, status);
    case RdmaResult(generation, status, cancelled) => ResultWeight(u, generation, status, cancelled);
    case TransportReleased(_) =>
  }

  // Without new arrivals every step brings the transaction closer to rest.
  lemma StepsRunOut(w: World, m: Move)
    requires Inv(w) && Enabled(w, m) && !m.Arrive?
    ensures Remaining(Step(w, m)) < Remaining(w)
  {
    hide Begin, TodoWeight, ClaimsOk, ThreadsOk, LogOk, AnswerOk;
    if m.Advance? {
      var i, rest := m.thread, w.threads[m.thread][1..];
      var effect := w.threads[i][0];
      var (v, todo) := Next(w, effect, rest, m.outcome);
      WorkUpdate(w.threads, i, todo);
      HeadWeight(w.threads[i]);
      NextWeight(w, effect, rest, m.outcome);
    }
  }

  lemma HeadWeight(todo: Todo)
    requires todo != []
    ensures TodoWeight(todo) == Weight(todo[0]) + TodoWeight(todo[1..])
  {}

  lemma NextWeight(w: World, effect: Effect, rest: Todo, outcome: int)
    requires ClaimsOk(w.tx)
    ensures var (v, todo) := Next(w, effect, rest, outcome);
      v.threads == w.threads && TodoWeight(todo) + Pending(v) < Weight(effect) + TodoWeight(rest) + Pending(w)
  {
    hide ClaimsOk;
    if effect.Enter? {
      EnterWeight(w, effect.event, rest);
    } else if effect.Finish? {
    } else {
      SubmitWeight(w, effect, rest, outcome);
    }
  }

  lemma EnterWeight(w: World, e: Event, rest: Todo)
    requires ClaimsOk(w.tx)
    ensures var (t, todo) := Begin(w.tx, e);
      TodoWeight(todo + [Finish] + rest) + Pending(w.(tx := t)) < Weight(Enter(e)) + TodoWeight(rest) + Pending(w)
  {
    hide Begin, ClaimsOk;
    BeginWeight(w.tx, e);
    var todo := Begin(w.tx, e).1;
    WeightConcat(todo, [Finish]);
    WeightConcat(todo + [Finish], rest);
  }

  lemma SubmitWeight(w: World, effect: Effect, rest: Todo, outcome: int)
    requires !effect.Enter? && !effect.Finish?
    ensures var (v, todo) := Next(w, effect, rest, outcome);
      v == w.(log := v.log) && TodoWeight(todo) < Weight(effect) + TodoWeight(rest)
  {
    hide Begin, End;
    match effect
    case SubmitBacking => WeightConcat([Enter(BackingDone(outcome))], rest);
    case StartBacking => WeightConcat([SubmitBacking], rest);
    case SubmitRdma =>
      FailureWeight(w.tx, outcome);
      WeightConcat(FailedSubmission(w.tx, outcome), rest);
    case Prepare => PrepareWeight(w.tx, outcome, rest);
    case _ =>
  }

  lemma PrepareWeight(t: Transaction, outcome: int, rest: Todo)
    ensures TodoWeight([StartBacking] + (if outcome != 0 then FailedSubmission(t, outcome) else [SubmitRdma]) + rest)
      < Weight(Prepare) + TodoWeight(rest)
  {
    FailureWeight(t, outcome);
    var more := if outcome != 0 then FailedSubmission(t, outcome) else [SubmitRdma];
    WeightConcat([StartBacking], more);
    WeightConcat([StartBacking] + more, rest);
  }

  lemma FailureWeight(t: Transaction, status: int)
    ensures TodoWeight(FailedSubmission(t, status)) == 20
  {
    WeightConcat([Enter(TransportReleased(t.generation))], [Enter(RdmaResult(t.generation, status, false))]);
    assert [Enter(TransportReleased(t.generation))] + [Enter(RdmaResult(t.generation, status, false))] == FailedSubmission(t, status);
  }

  // ---------------------------------------------------------------------- set-up

  const ESHUTDOWN := 108
  const EINVAL := 22
  const ENOMEM := 12

  datatype Request = Request(payload: bool, bytes: nat, generation: nat, direction: Direction)
  datatype Setup = Rejected(calls: seq<Call>) | Ready(world: World)

  // A refused start still answers the request and settles it; the engine counts only what it had registered.
  function SetUp(initialized: bool, mode: Mode, r: Request, allocation: int, storage: bool, locked: int): Setup {
    if !initialized then Rejected([Completed(-ESHUTDOWN), Settled])
    else if !r.payload || r.bytes == 0 || r.generation == 0 then Rejected([Completed(-EINVAL), Left, Settled])
    else if allocation != 0 then Rejected([Completed(allocation), Left, Settled])
    else if !storage then Rejected([Completed(-ENOMEM), Left, Settled])
    else if locked != 0 then Rejected([Released, Completed(locked), Left, Settled])
    else Ready(Start(mode, r.direction, r.generation))
  }

  predicate SameCall(a: Call, b: Call) {
    match a
    case Completed(_) => b.Completed?
    case Released => b.Released?
    case Left => b.Left?
    case Settled => b.Settled?
  }

  // A refused start completes once, with an error, and settles once, last of all; nothing happens twice.
  lemma RefusedStartSettles(initialized: bool, mode: Mode, r: Request, allocation: int, storage: bool, locked: int)
    requires SetUp(initialized, mode, r, allocation, storage, locked).Rejected?
    ensures var calls := SetUp(initialized, mode, r, allocation, storage, locked).calls;
      && (forall i :: 0 <= i < |calls| && calls[i].Completed? ==> calls[i].status != 0)
      && (exists i :: 0 <= i < |calls| && calls[i].Completed?) && calls[|calls| - 1].Settled?
      && (forall i, j :: 0 <= i < j < |calls| ==> !SameCall(calls[i], calls[j]))
      && (Left in calls <==> initialized)
  {
    var calls := SetUp(initialized, mode, r, allocation, storage, locked).calls;
    var k := if calls[0].Completed? then 0 else 1;
    assert calls[k].Completed?;
    assert initialized ==> calls[|calls| - 2] == Left;
  }

  // ------------------------------------------------------------- in-place form

  // The locked sections as they update a transaction; each returns what its thread does next.
  class LiveTransaction {
    const mode: Mode
    const direction: Direction
    const generation: nat
    const policy: CompletionPolicy
    var activeEvents: nat
    var backingRetries: nat
    var backingClaim: bool
    var resultClaim: bool
    var transportClaim: bool
    var reported: bool
    var settling: bool

    ghost function Model(): Transaction
      reads this, policy
    {
      Transaction(mode, direction, generation, policy.Model(), activeEvents, backingRetries, backingClaim, resultClaim,
                  transportClaim, reported, settling)
    }

    constructor (mode: Mode, direction: Direction, generation: nat)
      ensures Model() == Start(mode, direction, generation).tx && fresh(policy)
    {
      this.mode, this.direction, this.generation := mode, direction, generation;
      var kind := KindOf(mode, direction);
      policy := new CompletionPolicy(kind, generation);
      activeEvents, backingRetries := 1, 0;
      backingClaim, resultClaim, transportClaim := IsBackedWrite(kind), true, true;
      reported, settling := false, false;
    }

    method Note() returns (todo: Todo)
      modifies `reported
      ensures (Model(), todo) == NoteInvariant(old(Model()))
    {
      todo := if reported then [] else [Report];
      reported := true;
    }

    method BackingCompleted(status: int) returns (todo: Todo)
      modifies this, policy
      ensures (Model(), todo) == Begin(old(Model()), BackingDone(status))
    {
      hide IoPolicy.LocalComplete;
      activeEvents := activeEvents + 1;
      if !backingClaim {
        todo := Note();
      } else if status != 0 && mode.BackedRemoteFirst? && direction.Write? && backingRetries == 0 {
        backingRetries := backingRetries + 1;
        todo := [SubmitBacking];
      } else {
        var action := policy.LocalDone(status);
        todo := ActionTodo(action, if policy.localDone then policy.localStatus else policy.remoteStatus);
        backingClaim := false;
      }
    }

    method RdmaCompleted(g: nat, status: int, cancelled: bool) returns (todo: Todo)
      modifies this, policy
      ensures (Model(), todo) == Begin(old(Model()), RdmaResult(g, status, cancelled))
    {
      hide IoPolicy.RemoteComplete, IoPolicy.CancelRemote, ActionTodo;
      activeEvents := activeEvents + 1;
      if g != generation {
        todo := [];
      } else if !resultClaim {
        todo := Note();
      } else {
        var action := policy.RemoteDone(g, status, cancelled);
        var report: Todo := [];
        if action.submitLocal {
          if backingClaim { report := Note(); } else { backingClaim := true; }
        }
        resultClaim := false;
        var follow := ActionTodo(action, if policy.localDone then policy.localStatus else policy.remoteStatus);
        assert [] + follow == follow;
        todo := report + follow;
      }
    }

    method RdmaReleased(g: nat) returns (todo: Todo)
      modifies this
      ensures (Model(), todo) == Begin(old(Model()), TransportReleased(g))
    {
      activeEvents := activeEvents + 1;
      todo := [];
      if g == generation {
        if !transportClaim { todo := Note(); } else { transportClaim := false; }
      }
    }

    method FinishEvent() returns (ending: Ending)
      modifies this
      ensures (Model(), ending) == End(old(Model()))
    {
      if activeEvents != 0 { activeEvents := activeEvents - 1; }
      ending := Nothing;
      if activeEvents == 0 && !backingClaim && !resultClaim && !transportClaim && !settling {
        if !(policy.requestComplete && !policy.localPending && !policy.remotePending) {
          ending := Unreleasable;
        } else {
          settling := true;
          ending := Settle;
        }
      }
    }
  }
}
