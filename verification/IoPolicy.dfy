/**
 The completion policy of a remote I/O request: when the request completes, with
 which outcome, and what else must happen, as the backing and remote copies
 finish in either order.
 */
module IoPolicy {

  datatype Kind = StrictWrite | RemoteFirstWrite | RemoteRead | RemoteOnlyWrite | RemoteOnlyRead

  datatype Policy = Policy(
    kind: Kind, generation: nat, localPending: bool, remotePending: bool, localDone: bool, remoteDone: bool,
    remoteCancelled: bool, requestComplete: bool, backingDegraded: bool, localStatus: int, remoteStatus: int)

  // The action mask, one flag a bit.
  datatype Action = Action(submitLocal: bool, succeed: bool, fail: bool, degraded: bool, localOnly: bool)
  const NO_ACTION := Action(false, false, false, false, false)

  predicate IsBackedWrite(kind: Kind) { kind.StrictWrite? || kind.RemoteFirstWrite? }
  predicate IsRemoteOnly(kind: Kind) { kind.RemoteOnlyWrite? || kind.RemoteOnlyRead? }

  function Init(kind: Kind, generation: nat): Policy {
    Policy(kind, generation, IsBackedWrite(kind), true, false, false, false, false, false, 0, 0)
  }

  function CompleteRequest(p: Policy, status: int): (Policy, Action) {
    if p.requestComplete then (p, NO_ACTION)
    else (p.(requestComplete := true), NO_ACTION.(succeed := status == 0, fail := status != 0))
  }

  function FinishWrite(p: Policy): (Policy, Action) {
    if p.kind.StrictWrite? then
      var (q, action) := CompleteRequest(p, p.localStatus);
      (q, action.(localOnly := p.localStatus == 0 && p.remoteStatus != 0))
    else if p.remoteStatus == 0 then CompleteRequest(p, 0)
    else
      var (q, action) := CompleteRequest(p, p.localStatus);
      (q, action.(localOnly := p.localStatus == 0))
  }

  function LocalComplete(p: Policy, status: int): (Policy, Action) {
    if !p.localPending || p.localDone then (p, NO_ACTION)
    else
      var q := p.(localPending := false, localDone := true, localStatus := status,
                  backingDegraded := p.backingDegraded || status != 0);
      var (r, action) :=
        if p.kind.RemoteRead? then CompleteRequest(q, status) else if !q.remoteDone then (q, NO_ACTION) else FinishWrite(q);
      (r, action.(degraded := status != 0))
  }

  function RemoteTerminal(p: Policy, status: int): (Policy, Action) {
    var q := p.(remotePending := false, remoteDone := true, remoteStatus := status);
    if IsRemoteOnly(p.kind) then CompleteRequest(q, status)
    else if p.kind.RemoteRead? then
      if status == 0 then CompleteRequest(q, 0) else (q.(localPending := true), NO_ACTION.(submitLocal := true))
    else if p.kind.RemoteFirstWrite? && status == 0 then CompleteRequest(q, 0)
    else if !q.localDone then (q, NO_ACTION)
    else FinishWrite(q)
  }

  predicate AwaitsRemote(p: Policy, generation: nat) {
    generation == p.generation && !p.remoteCancelled && p.remotePending && !p.remoteDone
  }

  function RemoteComplete(p: Policy, generation: nat, status: int): (Policy, Action) {
    if AwaitsRemote(p, generation) then RemoteTerminal(p, status) else (p, NO_ACTION)
  }

  function CancelRemote(p: Policy, generation: nat, status: int): (Policy, Action) {
    if AwaitsRemote(p, generation) then RemoteTerminal(p.(remoteCancelled := true), status) else (p, NO_ACTION)
  }

  predicate Releasable(p: Policy) { p.requestComplete && !p.localPending && !p.remotePending }

  // ------------------------------------------------------------------ meaning

  // What the request promises: the copies that count towards its success.
  predicate Succeeded(p: Policy) {
    match p.kind
    case StrictWrite => p.localDone && p.localStatus == 0
    case RemoteFirstWrite => (p.localDone && p.localStatus == 0) || (p.remoteDone && p.remoteStatus == 0)
    case RemoteRead => (p.localDone && p.localStatus == 0) || (p.remoteDone && p.remoteStatus == 0)
    case RemoteOnlyWrite => p.remoteDone && p.remoteStatus == 0
    case RemoteOnlyRead => p.remoteDone && p.remoteStatus == 0
  }

  // Enough is known to decide the request.
  predicate Decided(p: Policy) {
    match p.kind
    case StrictWrite => p.localDone && p.remoteDone
    case RemoteFirstWrite => p.remoteDone && (p.remoteStatus == 0 || p.localDone)
    case RemoteRead => p.remoteDone && (p.remoteStatus == 0 || p.localDone)
    case RemoteOnlyWrite => p.remoteDone
    case RemoteOnlyRead => p.remoteDone
  }

  // The policy states that events can reach.
  ghost predicate Sound(p: Policy) {
    && (p.remotePending <==> !p.remoteDone) && (p.remoteCancelled ==> p.remoteDone)
    && (IsBackedWrite(p.kind) ==> (p.localPending <==> !p.localDone))
    && (IsRemoteOnly(p.kind) ==> !p.localPending && !p.localDone)
    && (p.kind.RemoteRead? ==>
          if p.remoteDone && p.remoteStatus != 0 then p.localPending <==> !p.localDone else !p.localPending && !p.localDone)
    && (p.requestComplete <==> Decided(p)) && (p.backingDegraded <==> p.localDone && p.localStatus != 0)
  }

  lemma InitSound(kind: Kind, generation: nat)
    ensures Sound(Init(kind, generation)) && !Init(kind, generation).requestComplete
  {}

  // The status a completed request reports.
  function ReportedStatus(p: Policy): int { if p.localDone then p.localStatus else p.remoteStatus }

  // The backing copy is a write's only good one.
  predicate OnlyLocalGood(p: Policy) {
    IsBackedWrite(p.kind) && p.localDone && p.remoteDone && p.localStatus == 0 && p.remoteStatus != 0
  }

  // A step decides the request at most once. The decision is a success exactly when what was promised has succeeded, an
  // error carries a nonzero status, and a decision once made is not contradicted later. A failed backing copy, a write
  // whose only good copy is the backing one, and a read that must turn to the backing copy are each reported by the step
  // that finds out, and by no other.
  ghost predicate Decides(p: Policy, q: Policy, action: Action) {
    && Sound(q) && q.kind == p.kind && q.generation == p.generation
    && (p.requestComplete ==> q.requestComplete && !action.succeed && !action.fail && (Succeeded(q) <==> Succeeded(p)))
    && (!p.requestComplete ==> (q.requestComplete <==> action.succeed || action.fail))
    && !(action.succeed && action.fail)
    && (action.succeed ==> Succeeded(q)) && (action.fail ==> !Succeeded(q) && ReportedStatus(q) != 0)
    && (action.degraded <==> q.backingDegraded && !p.backingDegraded)
    && (action.localOnly <==> OnlyLocalGood(q) && !OnlyLocalGood(p))
    && (action.submitLocal <==> q.localPending && !p.localPending)
  }

  lemma LocalDecides(p: Policy, status: int)
    requires Sound(p) && p.localPending
    ensures var (q, action) := LocalComplete(p, status);
      && Decides(p, q, action) && !q.localPending && q.localDone && q.localStatus == status && !action.submitLocal
      && q.remotePending == p.remotePending
  {}

  lemma RemoteDecides(p: Policy, status: int, cancelled: bool)
    requires Sound(p) && p.remotePending
    ensures var (q, action) := if cancelled then CancelRemote(p, p.generation, status) else RemoteComplete(p, p.generation, status);
      && Decides(p, q, action) && !q.remotePending && q.remoteDone && q.remoteStatus == status
      && q.localPending == (p.localPending || action.submitLocal) && (action.submitLocal ==> !p.localPending)
  {}

  // When neither copy is outstanding the request has completed.
  lemma QuietIsReleasable(p: Policy)
    requires Sound(p) && !p.localPending && !p.remotePending
    ensures Releasable(p)
  {}

  // ------------------------------------------------------------- in-place form

  class CompletionPolicy {
    var kind: Kind
    var generation: nat
    var localPending: bool
    var remotePending: bool
    var localDone: bool
    var remoteDone: bool
    var remoteCancelled: bool
    var requestComplete: bool
    var backingDegraded: bool
    var localStatus: int
    var remoteStatus: int

    ghost function Model(): Policy
      reads this
    {
      Policy(kind, generation, localPending, remotePending, localDone, remoteDone, remoteCancelled, requestComplete,
             backingDegraded, localStatus, remoteStatus)
    }

    constructor (kind: Kind, generation: nat)
      ensures Model() == Init(kind, generation)
    {
      this.kind, this.generation := kind, generation;
      localPending, remotePending := IsBackedWrite(kind), true;
      localDone, remoteDone, remoteCancelled, requestComplete, backingDegraded := false, false, false, false, false;
      localStatus, remoteStatus := 0, 0;
    }

    method Complete(status: int) returns (action: Action)
      modifies `requestComplete
      ensures (Model(), action) == CompleteRequest(old(Model()), status)
    {
      if requestComplete { return NO_ACTION; }
      requestComplete := true;
      return NO_ACTION.(succeed := status == 0, fail := status != 0);
    }

    method CloseWrite() returns (action: Action)
      modifies `requestComplete
      ensures (Model(), action) == FinishWrite(old(Model()))
    {
      if kind.StrictWrite? {
        action := Complete(localStatus);
        action := action.(localOnly := localStatus == 0 && remoteStatus != 0);
      } else if remoteStatus == 0 {
        action := Complete(0);
      } else {
        action := Complete(localStatus);
        action := action.(localOnly := localStatus == 0);
      }
    }

    method LocalDone(status: int) returns (action: Action)
      modifies this
      ensures (Model(), action) == LocalComplete(old(Model()), status)
    {
      if !localPending || localDone { return NO_ACTION; }
      localPending, localDone, localStatus := false, true, status;
      if status != 0 { backingDegraded := true; }
      action := NO_ACTION;
      if kind.RemoteRead? {
        action := Complete(status);
      } else if remoteDone {
        action := CloseWrite();
      }
      action := action.(degraded := status != 0);
    }

    method RemoteEnds(status: int) returns (action: Action)
      modifies this
      ensures (Model(), action) == RemoteTerminal(old(Model()), status)
    {
      remotePending, remoteDone, remoteStatus := false, true, status;
      if IsRemoteOnly(kind) {
        action := Complete(status);
      } else if kind.RemoteRead? {
        if status == 0 {
          action := Complete(0);
        } else {
          localPending := true;
          action := NO_ACTION.(submitLocal := true);
        }
      } else if kind.RemoteFirstWrite? && status == 0 {
        action := Complete(0);
      } else if !localDone {
        action := NO_ACTION;
      } else {
        action := CloseWrite();
      }
    }

    method RemoteDone(g: nat, status: int, cancelled: bool) returns (action: Action)
      modifies this
      ensures (Model(), action) == if cancelled then CancelRemote(old(Model()), g, status)
                                   else RemoteComplete(old(Model()), g, status)
    {
      if g != generation || remoteCancelled || !remotePending || remoteDone { return NO_ACTION; }
      if cancelled { remoteCancelled := true; }
      action := RemoteEnds(status);
    }
  }
}
