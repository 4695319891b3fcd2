/**
 The owner of one RDMA operation. Three callers race: the submitter that reports
 whether the post succeeded, the completion of the posted work, and the Provider
 deadline. Each takes the owner's lock for its decisions and calls adapters
 outside it, so every locked section and every adapter call is one step here.
 */
module OperationOwner {

  datatype Terminal = NoTerminal | Completion | Deadline
  datatype PostState = PostPending | PostSucceeded | PostFailed
  datatype DeadlineState = Unarmed | Arming | Armed | Cancelling | Cancelled | Fired

  datatype Owner = Owner(
    activeEvents: nat, submitClaim: bool, completionClaim: bool, deadlineClaim: bool, post: PostState,
    deadline: DeadlineState, completionSeen: bool, deadlineSeen: bool, reported: bool, destroying: bool, terminal: Terminal)

  const FRESH_OWNER := Owner(0, true, true, true, PostPending, Unarmed, false, false, false, false, NoTerminal)

  // Where each caller stands; a place names what the caller does next and what it has decided so far.
  datatype Submitter =
    | Posting | ArmCall | AfterArm | CancelCall | AfterCancel | AbortCall
    | SubmitReport(own: bool, all: bool)                    // then finish with these claims
    | SubmitFinish(own: bool, all: bool, release: bool)     // release the submit, every, the deadline claim
    | SubmitDone

  datatype Completer =
    | Working | CompleterCancel(publish: bool, late: bool) | MarkCancelled(publish: bool, late: bool)
    | RetireCall(publish: bool, late: bool, cancelled: bool) | PublishCall(cancelled: bool) | ReleaseCall(cancelled: bool)
    | CompleteFinish(own: bool, cancelled: bool) | CompleteReport | CompleteDone

  datatype Timer = Quiet | Scheduled | Revoked | Running

  datatype Watcher = Waiting | Entering | DeadlinePublish | DeadlineFinish(release: bool) | DeadlineReport | DeadlineDone

  // Adapter calls made so far.
  datatype Calls = Calls(
    published: seq<Terminal>, retired: seq<bool>, released: nat, aborted: nat, cancels: nat, destroyed: nat, violations: nat)

  datatype World = World(
    accepted: bool,    // whether the hardware accepted the posted work
    owner: Owner, submitter: Submitter, completer: Completer, timer: Timer, watcher: Watcher, calls: Calls)

  function Start(accepted: bool): World {
    World(accepted, FRESH_OWNER, Posting, Working, Quiet, Waiting, Calls([], [], 0, 0, 0, 0, 0))
  }

  // ------------------------------------------------------------- locked sections

  function Entered(o: Owner): Owner { o.(activeEvents := o.activeEvents + 1) }

  function Dropped(o: Owner, submit: bool, completion: bool, deadline: bool): Owner {
    o.(submitClaim := o.submitClaim && !submit, completionClaim := o.completionClaim && !completion,
       deadlineClaim := o.deadlineClaim && !deadline)
  }

  // One event less; the last one out, with no claim left, destroys the owner.
  function Ended(o: Owner): (Owner, bool) {
    var p := o.(activeEvents := if o.activeEvents == 0 then 0 else o.activeEvents - 1);
    if p.activeEvents == 0 && !p.submitClaim && !p.completionClaim && !p.deadlineClaim && !p.destroying
    then (p.(destroying := true), true) else (p, false)
  }

  function FinishEvent(o: Owner, submit: bool, completion: bool, deadline: bool): (Owner, bool) {
    Ended(Dropped(o, submit, completion, deadline))
  }

  function Finished(w: World, submit: bool, completion: bool, deadline: bool): World {
    var (o, destroy) := FinishEvent(w.owner, submit, completion, deadline);
    w.(owner := o, calls := if destroy then w.calls.(destroyed := w.calls.destroyed + 1) else w.calls)
  }

  // The owner after post_succeeded's first section, whether it is a violation, and whether to arm the deadline.
  function BeginPosted(o: Owner): (Owner, Submitter) {
    var p := Entered(o);
    if !p.post.PostPending? then (p.(reported := true), if p.reported then SubmitFinish(false, false, false) else SubmitReport(false, false))
    else if p.completionSeen then (p.(post := PostSucceeded, deadline := Cancelled), SubmitFinish(true, false, true))
    else (p.(post := PostSucceeded, deadline := Arming), ArmCall)
  }

  function CheckArmed(o: Owner): (Owner, Submitter) {
    if o.deadlineSeen then (o.(deadline := Fired), SubmitFinish(true, false, false))
    else if o.completionSeen then (o.(deadline := Cancelling), CancelCall)
    else (o.(deadline := Armed), SubmitFinish(true, false, false))
  }

  function SettleCancel(o: Owner): (Owner, Submitter) {
    if !o.deadlineSeen then (o.(deadline := Cancelled), SubmitFinish(true, false, true))
    else (o, SubmitFinish(true, false, false))
  }

  function BeginFailed(o: Owner): (Owner, Submitter) {
    var p := Entered(o);
    if !p.post.PostPending? then (p.(reported := true), if p.reported then SubmitFinish(false, false, false) else SubmitReport(false, false))
    else
      var q := p.(post := PostFailed, deadline := Cancelled);
      if q.completionSeen then (q.(reported := true), if q.reported then SubmitFinish(true, true, true) else SubmitReport(true, true))
      else (q, AbortCall)
  }

  function BeginDeadline(o: Owner): (Owner, Watcher) {
    var p := Entered(o);
    if p.deadlineSeen || !p.post.PostSucceeded? || p.deadline.Cancelled? then
      (p.(reported := true), if p.reported then DeadlineFinish(false) else DeadlineReport)
    else
      var q := p.(deadlineSeen := true, deadline := Fired);
      if q.completionSeen || !q.terminal.NoTerminal? then (q, DeadlineFinish(true))
      else (q.(terminal := Deadline), DeadlinePublish)
  }

  function BeginCompleted(o: Owner): (Owner, Completer) {
    var p := Entered(o);
    if p.completionSeen || p.post.PostFailed? then
      (p.(reported := true), if p.reported then CompleteFinish(false, false) else CompleteReport)
    else
      var publish := p.terminal.NoTerminal?;
      var late := p.terminal.Deadline?;
      var q := p.(completionSeen := true, terminal := if publish then Completion else p.terminal);
      (q, if q.deadline.Armed? then CompleterCancel(publish, late) else RetireCall(publish, late, false))
  }

  // ----------------------------------------------------------------------- steps

  // Cancelling succeeds exactly when the timer is scheduled and has not started to run.
  function CancelTimer(w: World): (World, bool) {
    var called := w.(calls := w.calls.(cancels := w.calls.cancels + 1));
    if w.timer.Scheduled? then (called.(timer := Revoked), true) else (called, false)
  }

  function Violation(w: World): World { w.(calls := w.calls.(violations := w.calls.violations + 1)) }

  function SubmitStep(w: World): World {
    match w.submitter
    case Posting =>
      var (o, next) := if w.accepted then BeginPosted(w.owner) else BeginFailed(w.owner);
      w.(owner := o, submitter := next)
    case ArmCall => w.(timer := Scheduled, submitter := AfterArm)
    case AfterArm =>
      var (o, next) := CheckArmed(w.owner);
      w.(owner := o, submitter := next)
    case CancelCall =>
      var (v, ok) := CancelTimer(w);
      v.(submitter := if ok then AfterCancel else SubmitFinish(true, false, false))
    case AfterCancel =>
      var (o, next) := SettleCancel(w.owner);
      w.(owner := o, submitter := next)
    case AbortCall => w.(calls := w.calls.(aborted := w.calls.aborted + 1), submitter := SubmitFinish(true, true, true))
    case SubmitReport(own, all) => Violation(w).(submitter := SubmitFinish(own, all, all))
    case SubmitFinish(own, all, release) => Finished(w, own, all, release).(submitter := SubmitDone)
    case SubmitDone => w
  }

  function CompleteStep(w: World): World {
    match w.completer
    case Working =>
      var (o, next) := BeginCompleted(w.owner);
      w.(owner := o, completer := next)
    case CompleterCancel(publish, late) =>
      var (v, ok) := CancelTimer(w);
      v.(completer := if ok then MarkCancelled(publish, late) else RetireCall(publish, late, false))
    case MarkCancelled(publish, late) =>
      w.(owner := w.owner.(deadline := Cancelled), completer := RetireCall(publish, late, true))
    case RetireCall(publish, late, cancelled) =>
      w.(calls := w.calls.(retired := w.calls.retired + [late]),
         completer := if publish then PublishCall(cancelled) else ReleaseCall(cancelled))
    case PublishCall(cancelled) =>
      w.(calls := w.calls.(published := w.calls.published + [Completion]), completer := ReleaseCall(cancelled))
    case ReleaseCall(cancelled) =>
      w.(calls := w.calls.(released := w.calls.released + 1), completer := CompleteFinish(true, cancelled))
    case CompleteFinish(own, cancelled) => Finished(w, false, own, cancelled).(completer := CompleteDone)
    case CompleteReport => Violation(w).(completer := CompleteFinish(false, false))
    case CompleteDone => w
  }

  function WatchStep(w: World): World {
    match w.watcher
    case Waiting => w.(timer := Running, watcher := Entering)
    case Entering =>
      var (o, next) := BeginDeadline(w.owner);
      w.(owner := o, watcher := next)
    case DeadlinePublish =>
      w.(calls := w.calls.(published := w.calls.published + [Deadline]), watcher := DeadlineFinish(true))
    case DeadlineFinish(release) => Finished(w, false, false, release).(watcher := DeadlineDone)
    case DeadlineReport => Violation(w).(watcher := DeadlineFinish(false))
    case DeadlineDone => w
  }

  datatype Caller = Submit | Complete | Watch

  // Work the hardware did not accept never completes; the timer fires only while scheduled.
  predicate Enabled(w: World, c: Caller) {
    match c
    case Submit => !w.submitter.SubmitDone?
    case Complete => !w.completer.CompleteDone? && (w.completer.Working? ==> w.accepted)
    case Watch => !w.watcher.DeadlineDone? && (w.watcher.Waiting? ==> w.timer.Scheduled?)
  }

  function Step(w: World, c: Caller): World {
    match c
    case Submit => SubmitStep(w)
    case Complete => CompleteStep(w)
    case Watch => WatchStep(w)
  }

  // -------------------------------------------------------------------- invariant

  predicate SubmitBusy(s: Submitter) { !s.Posting? && !s.SubmitDone? }
  predicate CompleteBusy(c: Completer) { !c.Working? && !c.CompleteDone? }
  predicate WatchBusy(d: Watcher) { !d.Waiting? && !d.Entering? && !d.DeadlineDone? }
  function One(b: bool): nat { if b then 1 else 0 }

  // The submitter has passed the section that decides whether the deadline is armed.
  predicate Passed(s: Submitter) { s.SubmitFinish? || s.SubmitDone? }

  // The deadline state and the watcher, read off from the timer and the submitter.
  ghost predicate DeadlineOk(w: World) {
    && (w.timer.Running? <==> !w.watcher.Waiting?)
    && match w.submitter
       case Posting => w.timer.Quiet? && w.owner.deadline.Unarmed?
       case ArmCall => w.timer.Quiet? && w.owner.deadline.Arming?
       case AfterArm =>
         && (w.timer.Scheduled? || w.timer.Running?) && (w.timer.Scheduled? ==> w.owner.deadline.Arming?)
         && !w.owner.deadline.Armed?
       case CancelCall =>
         && (w.timer.Scheduled? || w.timer.Running?) && w.owner.completionSeen
         && (w.timer.Scheduled? ==> w.owner.deadline.Cancelling?) && !w.owner.deadline.Armed?
       case AfterCancel => w.timer.Revoked? && w.owner.deadline.Cancelling? && w.owner.completionSeen
       case SubmitFinish(_, _, release) =>
         && (w.timer.Quiet? ==> release && w.owner.deadline.Cancelled? && w.owner.completionSeen)
         && (w.timer.Scheduled? ==> !release && w.owner.deadline.Armed?)
         && (w.timer.Revoked? ==> w.owner.completionSeen) && (w.timer.Running? ==> !release)
       case SubmitDone =>
         && (w.timer.Quiet? ==> w.owner.deadline.Cancelled? && w.owner.completionSeen && !w.owner.deadlineClaim)
         && (w.timer.Scheduled? ==> w.owner.deadline.Armed?) && (w.timer.Revoked? ==> w.owner.completionSeen)
       case _ => false
  }

  // Who has cancelled the timer, if anyone.
  ghost predicate CancelOk(w: World) {
    && w.calls.cancels <= 1
    && (w.submitter.CancelCall? || w.completer.CompleterCancel? ==> w.calls.cancels == 0)
    && (w.timer.Quiet? ==> w.calls.cancels == 0)
    && (!w.owner.completionSeen ==> w.calls.cancels == 0)
    && (w.timer.Scheduled? && w.owner.completionSeen && Passed(w.submitter) ==> w.completer.CompleterCancel?)
    && (w.completer.CompleterCancel? ==> Passed(w.submitter) && (w.timer.Scheduled? || w.timer.Running?))
    && (w.submitter.AfterArm? && w.timer.Scheduled? ==> w.calls.cancels == 0)
    && (w.submitter.AfterArm? ==> w.calls.cancels == 0)
    && (w.timer.Revoked? ==> w.calls.cancels == 1)
  }

  // A timer that was revoked releases the deadline claim through whoever revoked it.
  ghost predicate RevokedOk(w: World) {
    w.timer.Revoked? ==>
      (match w.submitter
      case AfterCancel => !CompleterHolds(w.completer) && w.owner.deadlineClaim
      case SubmitFinish(_, _, release) =>
        if release then !CompleterHolds(w.completer) && w.owner.deadline.Cancelled? && w.owner.deadlineClaim
        else CompleterRevoked(w)
      case SubmitDone =>
        CompleterRevoked(w) || (!CompleterHolds(w.completer) && w.owner.deadline.Cancelled? && !w.owner.deadlineClaim)
      case _ => false)
  }

  predicate CompleterHolds(c: Completer) {
    match c
    case MarkCancelled(_, _) => true
    case RetireCall(_, _, cancelled) => cancelled
    case PublishCall(cancelled) => cancelled
    case ReleaseCall(cancelled) => cancelled
    case CompleteFinish(_, cancelled) => cancelled
    case _ => false
  }

  // The completer revoked the timer and will release, or has released, the deadline claim.
  ghost predicate CompleterRevoked(w: World) {
    || (CompleterHolds(w.completer) && w.owner.deadlineClaim && (w.completer.MarkCancelled? || w.owner.deadline.Cancelled?))
    || (w.completer.CompleteDone? && w.owner.deadline.Cancelled? && !w.owner.deadlineClaim)
  }

  // The deadline state when the watcher is about to enter, and after it has entered.
  ghost predicate WatchOk(w: World) {
    && (w.watcher.Entering? ==> !w.owner.deadline.Cancelled? && !w.owner.deadlineSeen && w.owner.deadlineClaim)
    && (w.owner.deadlineSeen <==> WatchBusy(w.watcher) || w.watcher.DeadlineDone?)
    && (WatchBusy(w.watcher) ==> w.owner.deadlineClaim) && (w.watcher.DeadlineDone? ==> !w.owner.deadlineClaim)
    && (w.watcher.DeadlineFinish? ==> w.watcher.release) && !w.watcher.DeadlineReport?
    && (w.timer.Running? ==> !CompleterHolds(w.completer))
    && (w.timer.Scheduled? || (w.timer.Quiet? && !Passed(w.submitter)) ==> w.owner.deadlineClaim && !CompleterHolds(w.completer))
    && (w.timer.Quiet? ==> !CompleterHolds(w.completer))
    && (w.timer.Quiet? && w.submitter.SubmitFinish? ==> w.owner.deadlineClaim)
  }

  // One terminal wins, and its winner publishes it once.
  ghost predicate TerminalOk(w: World) {
    var deadlineWon := w.owner.terminal.Deadline?;
    && (w.owner.terminal.NoTerminal? <==> !w.owner.completionSeen && !w.owner.deadlineSeen)
    && (w.owner.terminal.Completion? ==> w.owner.completionSeen) && (deadlineWon ==> w.owner.deadlineSeen)
    && w.calls.published ==
         (if deadlineWon && !w.watcher.DeadlinePublish? then [Deadline]
          else if w.owner.terminal.Completion? && (w.completer.ReleaseCall? || w.completer.CompleteFinish? || w.completer.CompleteDone?)
          then [Completion] else [])
    && (w.watcher.DeadlinePublish? ==> deadlineWon)
    && match w.completer
       case CompleterCancel(publish, late) => publish == !deadlineWon && late == deadlineWon
       case MarkCancelled(publish, late) => publish == !deadlineWon && late == deadlineWon
       case RetireCall(publish, late, _) => publish == !deadlineWon && late == deadlineWon
       case PublishCall(_) => !deadlineWon
       case _ => true
  }

  ghost predicate RetireOk(w: World) {
    var retired := w.completer.PublishCall? || w.completer.ReleaseCall? || w.completer.CompleteFinish? || w.completer.CompleteDone?;
    && w.calls.retired == (if retired then [w.owner.terminal.Deadline?] else [])
    && w.calls.released == One(w.completer.CompleteFinish? || w.completer.CompleteDone?)
  }

  ghost predicate PostedOk(w: World) {
    && !w.submitter.AbortCall? && !w.submitter.SubmitReport? && !w.completer.CompleteReport?
    && (w.submitter.SubmitFinish? ==> w.submitter.own && !w.submitter.all) && (w.completer.CompleteFinish? ==> w.completer.own)
    && (w.owner.post == if w.submitter.Posting? then PostPending else PostSucceeded)
    && (w.owner.completionSeen <==> !w.completer.Working?)
    && w.owner.submitClaim == !w.submitter.SubmitDone? && w.owner.completionClaim == !w.completer.CompleteDone?
    && w.owner.activeEvents == One(SubmitBusy(w.submitter)) + One(CompleteBusy(w.completer)) + One(WatchBusy(w.watcher))
    && w.calls.aborted == 0
  }

  ghost predicate Released(o: Owner) {
    o.activeEvents == 0 && !o.submitClaim && !o.completionClaim && !o.deadlineClaim
  }

  ghost predicate RefusedOk(w: World) {
    && w.completer.Working? && w.watcher.Waiting? && w.timer.Quiet? && !w.owner.completionSeen && !w.owner.deadlineSeen
    && w.calls == Calls([], [], 0, One(w.submitter.SubmitFinish? || w.submitter.SubmitDone?), 0, One(w.submitter.SubmitDone?), 0)
    && match w.submitter
       case Posting => w.owner == FRESH_OWNER
       case AbortCall => w.owner == FRESH_OWNER.(activeEvents := 1, post := PostFailed, deadline := Cancelled)
       case SubmitFinish(own, all, release) =>
         own && all && release && w.owner == FRESH_OWNER.(activeEvents := 1, post := PostFailed, deadline := Cancelled)
       case SubmitDone => Released(w.owner)
       case _ => false
  }

  ghost predicate AcceptedOk(w: World) {
    && PostedOk(w) && DeadlineOk(w) && CancelOk(w) && RevokedOk(w) && WatchOk(w) && TerminalOk(w) && RetireOk(w)
    && w.calls.violations == 0 && !w.owner.reported
    && (w.owner.destroying <==> Released(w.owner)) && w.calls.destroyed == One(w.owner.destroying)
  }

  ghost predicate Inv(w: World) {
    if w.accepted then AcceptedOk(w) else RefusedOk(w)
  }

  lemma StartInv(accepted: bool)
    ensures Inv(Start(accepted))
  {}

  lemma RefusedKeeps(w: World, c: Caller)
    requires !w.accepted && Inv(w) && Enabled(w, c)
    ensures Inv(Step(w, c))
  {}

  lemma PostingKeeps(w: World)
    requires w.accepted && Inv(w) && w.submitter.Posting?
    ensures Inv(SubmitStep(w))
  {}

  lemma ArmCallKeeps(w: World)
    requires w.accepted && Inv(w) && w.submitter.ArmCall?
    ensures Inv(SubmitStep(w))
  {}

  lemma AfterArmKeeps(w: World)
    requires w.accepted && Inv(w) && w.submitter.AfterArm?
    ensures Inv(SubmitStep(w))
  {}

  lemma CancelCallKeeps(w: World)
    requires w.accepted && Inv(w) && w.submitter.CancelCall?
    ensures Inv(SubmitStep(w))
  {}

  lemma AfterCancelKeeps(w: World)
    requires w.accepted && Inv(w) && w.submitter.AfterCancel?
    ensures Inv(SubmitStep(w))
  {}

  lemma SubmitFinishKeeps(w: World)
    requires w.accepted && Inv(w) && w.submitter.SubmitFinish?
    ensures Inv(SubmitStep(w))
  {}

  lemma WorkingKeeps(w: World)
    requires w.accepted && Inv(w) && w.completer.Working?
    ensures Inv(CompleteStep(w))
  {}

  lemma CompleterCancelKeeps(w: World)
    requires w.accepted && Inv(w) && w.completer.CompleterCancel?
    ensures Inv(CompleteStep(w))
  {}

  lemma MarkCancelledKeeps(w: World)
    requires w.accepted && Inv(w) && w.completer.MarkCancelled?
    ensures Inv(CompleteStep(w))
  {}

  lemma RetireCallKeeps(w: World)
    requires w.accepted && Inv(w) && w.completer.RetireCall?
    ensures Inv(CompleteStep(w))
  {}

  lemma PublishCallKeeps(w: World)
    requires w.accepted && Inv(w) && w.completer.PublishCall?
    ensures Inv(CompleteStep(w))
  {}

  lemma ReleaseCallKeeps(w: World)
    requires w.accepted && Inv(w) && w.completer.ReleaseCall?
    ensures Inv(CompleteStep(w))
  {}

  lemma CompleteFinishKeeps(w: World)
    requires w.accepted && Inv(w) && w.completer.CompleteFinish?
    ensures Inv(CompleteStep(w))
  {}

  lemma WaitingKeeps(w: World)
    requires w.accepted && Inv(w) && w.watcher.Waiting? && w.timer.Scheduled?
    ensures Inv(WatchStep(w))
  {}

  lemma EnteringKeeps(w: World)
    requires w.accepted && Inv(w) && w.watcher.Entering?
    ensures Inv(WatchStep(w))
  {}

  lemma DeadlinePublishKeeps(w: World)
    requires w.accepted && Inv(w) && w.watcher.DeadlinePublish?
    ensures Inv(WatchStep(w))
  {}

  lemma DeadlineFinishKeeps(w: World)
    requires w.accepted && Inv(w) && w.watcher.DeadlineFinish?
    ensures Inv(WatchStep(w))
  {}

  lemma StepKeeps(w: World, c: Caller)
    requires Inv(w) && Enabled(w, c)
    ensures Inv(Step(w, c))
  {
    hide SubmitStep, CompleteStep, WatchStep, DeadlineOk, CancelOk, RevokedOk, WatchOk, TerminalOk, RetireOk, Released;
    if !w.accepted {
      RefusedKeeps(w, c);
    } else {
      match c
      case Submit =>
        WatchPlaces(w);
        match w.submitter {
          case Posting => PostingKeeps(w);
          case ArmCall => ArmCallKeeps(w);
          case AfterArm => AfterArmKeeps(w);
          case CancelCall => CancelCallKeeps(w);
          case AfterCancel => AfterCancelKeeps(w);
          case SubmitFinish(_, _, _) => SubmitFinishKeeps(w);
        }
      case Complete =>
        match w.completer {
          case Working => WorkingKeeps(w);
          case CompleterCancel(_, _) => CompleterCancelKeeps(w);
          case MarkCancelled(_, _) => MarkCancelledKeeps(w);
          case RetireCall(_, _, _) => RetireCallKeeps(w);
          case PublishCall(_) => PublishCallKeeps(w);
          case ReleaseCall(_) => ReleaseCallKeeps(w);
          case CompleteFinish(_, _) => CompleteFinishKeeps(w);
        }
      case Watch =>
        WatchPlaces(w);
        match w.watcher {
          case Waiting => WaitingKeeps(w);
          case Entering => EnteringKeeps(w);
          case DeadlinePublish => DeadlinePublishKeeps(w);
          case DeadlineFinish(_) => DeadlineFinishKeeps(w);
        }
    }
  }

  lemma WatchPlaces(w: World)
    requires AcceptedOk(w)
    ensures !w.watcher.DeadlineReport? && !w.submitter.AbortCall? && !w.submitter.SubmitReport?
  {}

  // ------------------------------------------------------------------------ runs

  ghost predicate PossibleRun(w: World, cs: seq<Caller>)
    decreases |cs|
  {
    cs == [] || (Enabled(w, cs[0]) && PossibleRun(Step(w, cs[0]), cs[1..]))
  }

  function Run(w: World, cs: seq<Caller>): World
    decreases |cs|
  {
    if cs == [] then w else Run(Step(w, cs[0]), cs[1..])
  }

  lemma {:induction false} RunKeeps(w: World, cs: seq<Caller>)
    requires Inv(w) && PossibleRun(w, cs)
    ensures Inv(Run(w, cs))
    decreases |cs|
  {
    hide Inv, Step;
    if cs != [] {
      StepKeeps(w, cs[0]);
      RunKeeps(Step(w, cs[0]), cs[1..]);
    }
  }

  // At every point of every interleaving: no violation is reported, nothing happens twice, at most one caller tries to
  // cancel the timer, and once the operation is destroyed no caller has anything left to do.
  lemma SafeInEveryRun(accepted: bool, cs: seq<Caller>)
    requires PossibleRun(Start(accepted), cs)
    ensures var w := Run(Start(accepted), cs);
      && w.calls.violations == 0 && |w.calls.published| <= 1 && |w.calls.retired| <= 1 && w.calls.released <= 1
      && w.calls.aborted <= 1 && w.calls.cancels <= 1 && w.calls.destroyed <= 1
      && (w.calls.destroyed == 1 ==> forall c :: !Enabled(w, c))
      && (!accepted ==> w.calls.published == [] && w.calls.retired == [] && w.calls.released == 0 && w.calls.cancels == 0)
  {
    hide Run, Step;
    StartInv(accepted);
    RunKeeps(Start(accepted), cs);
    RunAccepted(Start(accepted), cs);
    var w := Run(Start(accepted), cs);
    if w.accepted && w.calls.destroyed == 1 { DestroyedIsDone(w); }
  }

  lemma {:induction false} RunAccepted(w: World, cs: seq<Caller>)
    ensures Run(w, cs).accepted == w.accepted
    decreases |cs|
  {
    if cs != [] {
      StepAccepted(w, cs[0]);
      RunAccepted(Step(w, cs[0]), cs[1..]);
    }
  }

  lemma StepAccepted(w: World, c: Caller)
    ensures Step(w, c).accepted == w.accepted
  {}

  lemma DestroyedIsDone(w: World)
    requires AcceptedOk(w) && w.owner.destroying
    ensures forall c :: !Enabled(w, c)
  {}

  // When nothing can happen any more, a posted operation has published exactly one terminal, retired once, late exactly
  // when the deadline won, released its I/O once and been destroyed once. A refused one was aborted and destroyed, once.
  lemma EndsOnce(accepted: bool, cs: seq<Caller>)
    requires PossibleRun(Start(accepted), cs) && forall c :: !Enabled(Run(Start(accepted), cs), c)
    ensures var w := Run(Start(accepted), cs);
      if accepted then
        && |w.calls.published| == 1 && w.calls.published[0] == w.owner.terminal && !w.owner.terminal.NoTerminal?
        && w.calls.retired == [w.owner.terminal.Deadline?] && w.calls.released == 1 && w.calls.destroyed == 1
        && w.calls.aborted == 0 && w.calls.cancels <= 1 && w.calls.violations == 0
      else w.calls == Calls([], [], 0, 1, 0, 1, 0)
  {
    hide Run, Step;
    StartInv(accepted);
    RunKeeps(Start(accepted), cs);
    RunAccepted(Start(accepted), cs);
    var w := Run(Start(accepted), cs);
    assert !Enabled(w, Submit) && !Enabled(w, Complete) && !Enabled(w, Watch);
    if accepted { QuietIsOver(w); }
  }

  lemma QuietIsOver(w: World)
    requires AcceptedOk(w) && w.submitter.SubmitDone? && w.completer.CompleteDone?
    requires w.watcher.DeadlineDone? || (w.watcher.Waiting? && !w.timer.Scheduled?)
    ensures Released(w.owner) && !w.owner.terminal.NoTerminal? && w.calls.destroyed == 1
  {}

  // --------------------------------------------------------------------- measure

  function SubmitLeft(s: Submitter): nat {
    match s
    case Posting => 7
    case ArmCall => 5
    case AfterArm => 4
    case CancelCall => 3
    case AfterCancel => 2
    case AbortCall => 2
    case SubmitReport(_, _) => 2
    case SubmitFinish(_, _, _) => 1
    case SubmitDone => 0
  }

  function CompleteLeft(c: Completer): nat {
    match c
    case Working => 8
    case CompleterCancel(_, _) => 6
    case MarkCancelled(_, _) => 5
    case RetireCall(_, _, _) => 4
    case PublishCall(_) => 3
    case ReleaseCall(_) => 2
    case CompleteReport => 2
    case CompleteFinish(_, _) => 1
    case CompleteDone => 0
  }

  function WatchLeft(d: Watcher): nat {
    match d
    case Waiting => 5
    case Entering => 4
    case DeadlinePublish => 2
    case DeadlineReport => 2
    case DeadlineFinish(_) => 1
    case DeadlineDone => 0
  }

  function Left(w: World): nat { SubmitLeft(w.submitter) + CompleteLeft(w.completer) + WatchLeft(w.watcher) }

  // Every step is progress, so no interleaving goes on for ever.
  lemma StepsRunOut(w: World, c: Caller)
    requires Enabled(w, c)
    ensures Left(Step(w, c)) < Left(w)
  {
    hide SubmitStep, CompleteStep, WatchStep, SubmitLeft, CompleteLeft, WatchLeft;
    match c
    case Submit => SubmitRunsOut(w);
    case Complete => CompleteRunsOut(w);
    case Watch => WatchRunsOut(w);
  }

  lemma SubmitRunsOut(w: World)
    requires Enabled(w, Submit)
    ensures var v := SubmitStep(w);
      && SubmitLeft(v.submitter) < SubmitLeft(w.submitter) && v.completer == w.completer
      && WatchLeft(v.watcher) <= WatchLeft(w.watcher)
  {}

  lemma CompleteRunsOut(w: World)
    requires Enabled(w, Complete)
    ensures var v := CompleteStep(w);
      && CompleteLeft(v.completer) < CompleteLeft(w.completer) && v.submitter == w.submitter
      && WatchLeft(v.watcher) <= WatchLeft(w.watcher)
  {}

  lemma WatchRunsOut(w: World)
    requires Enabled(w, Watch)
    ensures var v := WatchStep(w);
      WatchLeft(v.watcher) < WatchLeft(w.watcher) && v.submitter == w.submitter && v.completer == w.completer
  {}

  // No interleaving takes more than twenty steps.
  lemma {:induction false} RunsAreShort(w: World, cs: seq<Caller>)
    requires PossibleRun(w, cs)
    ensures |cs| <= Left(w)
    decreases |cs|
  {
    hide Step, Left, Enabled;
    if cs != [] {
      StepsRunOut(w, cs[0]);
      RunsAreShort(Step(w, cs[0]), cs[1..]);
    }
  }

  // ------------------------------------------------------------- in-place form

  // The locked sections as they update the owner; each returns where its caller goes next.
  class LiveOwner {
    var activeEvents: nat
    var submitClaim: bool
    var completionClaim: bool
    var deadlineClaim: bool
    var post: PostState
    var deadline: DeadlineState
    var completionSeen: bool
    var deadlineSeen: bool
    var reported: bool
    var destroying: bool
    var terminal: Terminal

    ghost function Model(): Owner
      reads this
    {
      Owner(activeEvents, submitClaim, completionClaim, deadlineClaim, post, deadline, completionSeen, deadlineSeen, reported,
            destroying, terminal)
    }

    constructor ()
      ensures Model() == FRESH_OWNER
    {
      activeEvents, submitClaim, completionClaim, deadlineClaim := 0, true, true, true;
      post, deadline, terminal := PostPending, Unarmed, NoTerminal;
      completionSeen, deadlineSeen, reported, destroying := false, false, false, false;
    }

    // Only the first violation is reported.
    method Note() returns (report: bool)
      modifies `reported
      ensures report == !old(reported) && reported
    {
      report := !reported;
      reported := true;
    }

    method PostSucceeds() returns (next: Submitter)
      modifies this
      ensures (Model(), next) == BeginPosted(old(Model()))
    {
      activeEvents := activeEvents + 1;
      if !post.PostPending? {
        var report := Note();
        return if report then SubmitReport(false, false) else SubmitFinish(false, false, false);
      }
      post := PostSucceeded;
      if completionSeen {
        deadline := Cancelled;
        return SubmitFinish(true, false, true);
      }
      deadline := Arming;
      return ArmCall;
    }

    method DeadlineArmed() returns (next: Submitter)
      modifies `deadline
      ensures (Model(), next) == CheckArmed(old(Model()))
    {
      if deadlineSeen {
        deadline := Fired;
        return SubmitFinish(true, false, false);
      }
      if completionSeen {
        deadline := Cancelling;
        return CancelCall;
      }
      deadline := Armed;
      return SubmitFinish(true, false, false);
    }

    method DeadlineCancelled() returns (next: Submitter)
      modifies `deadline
      ensures (Model(), next) == SettleCancel(old(Model()))
    {
      if deadlineSeen { return SubmitFinish(true, false, false); }
      deadline := Cancelled;
      return SubmitFinish(true, false, true);
    }

    method PostFails() returns (next: Submitter)
      modifies this
      ensures (Model(), next) == BeginFailed(old(Model()))
    {
      activeEvents := activeEvents + 1;
      var report;
      if !post.PostPending? {
        report := Note();
        return if report then SubmitReport(false, false) else SubmitFinish(false, false, false);
      }
      post, deadline := PostFailed, Cancelled;
      if completionSeen {
        report := Note();
        return if report then SubmitReport(true, true) else SubmitFinish(true, true, true);
      }
      return AbortCall;
    }

    method DeadlineFires() returns (next: Watcher)
      modifies this
      ensures (Model(), next) == BeginDeadline(old(Model()))
    {
      activeEvents := activeEvents + 1;
      if deadlineSeen || !post.PostSucceeded? || deadline.Cancelled? {
        var report := Note();
        return if report then DeadlineReport else DeadlineFinish(false);
      }
      deadlineSeen, deadline := true, Fired;
      if !completionSeen && terminal.NoTerminal? {
        terminal := Deadline;
        return DeadlinePublish;
      }
      return DeadlineFinish(true);
    }

    method RdmaCompletes() returns (next: Completer)
      modifies this
      ensures (Model(), next) == BeginCompleted(old(Model()))
    {
      activeEvents := activeEvents + 1;
      if completionSeen || post.PostFailed? {
        var report := Note();
        return if report then CompleteReport else CompleteFinish(false, false);
      }
      completionSeen := true;
      var publish, late := false, false;
      if terminal.NoTerminal? {
        terminal := Completion;
        publish := true;
      } else {
        late := terminal.Deadline?;
      }
      return if deadline.Armed? then CompleterCancel(publish, late) else RetireCall(publish, late, false);
    }

    method Finish(submit: bool, completion: bool, releaseDeadline: bool) returns (destroy: bool)
      modifies this
      ensures (Model(), destroy) == FinishEvent(old(Model()), submit, completion, releaseDeadline)
    {
      hide Dropped, Ended;
      DropClaims(submit, completion, releaseDeadline);
      destroy := EndEvent();
    }

    method EndEvent() returns (destroy: bool)
      modifies `activeEvents, `destroying
      ensures (Model(), destroy) == Ended(old(Model()))
    {
      if activeEvents != 0 { activeEvents := activeEvents - 1; }
      destroy := activeEvents == 0 && !submitClaim && !completionClaim && !deadlineClaim && !destroying;
      if destroy { destroying := true; }
    }

    method DropClaims(submit: bool, completion: bool, releaseDeadline: bool)
      modifies `submitClaim, `completionClaim, `deadlineClaim
      ensures Model() == Dropped(old(Model()), submit, completion, releaseDeadline)
    {
      if submit { submitClaim := false; }
      if completion { completionClaim := false; }
      if releaseDeadline { deadlineClaim := false; }
    }
  }
}
