/**
 The authorization registry: credentials with versions, listeners that are told
 when an authorization ends, revocation and reload. Every entry runs under one
 lock. The message authentication code and the clock are parameters.
 */
module AuthRegistry {
  import opened Options
  import opened WireBytes
  import opened Wire

  const SECRET_MIN: nat := 32
  const SECRET_MAX: nat := 64
  const MAX_CONSUMERS: nat := 64
  const MAX_OVERLAP_SECONDS: nat := 2592000
  const VERSION_SIZE: nat := 0x1_0000_0000_0000_0000

  datatype Key = Key(keyId: Text, secret: Bytes)
  const NO_KEY := Key([], [])

  // What a credential grants, apart from its standing.
  datatype Terms = Terms(current: Key, next: Key, nextUntil: U64, connections: U32, opportunistic: U32, committed: U32)

  datatype Credential = Credential(consumer: Text, terms: Terms, version: U64, revoked: bool)
  datatype Listener = Listener(consumer: Text, context: nat)

  datatype Registry = Registry(entries: seq<Credential>, listeners: seq<Listener>, lastVersion: U64)
  const EMPTY_REGISTRY := Registry([], [], 0)

  datatype Result = Ok | Invalid | Full | Duplicate | NotFound | Revoked | Denied | CryptoError

  // ------------------------------------------------------------------- validity

  predicate KeyValid(k: Key, optional: bool) {
    || (optional && k == NO_KEY)
    || (IdentifierValid(k.keyId, KEY_ID_MAX) && SECRET_MIN <= |k.secret| <= SECRET_MAX)
  }

  predicate CredentialValid(c: Credential, now: Option<nat>) {
    var t := c.terms;
    && IdentifierValid(c.consumer, CONSUMER_ID_MAX) && KeyValid(t.current, false) && KeyValid(t.next, true)
    && (t.next.secret != [] ==>
          && t.current.keyId != t.next.keyId && t.nextUntil != 0
          && now.Some? && now.value < t.nextUntil <= now.value + MAX_OVERLAP_SECONDS)
    && (t.next.secret == [] ==> t.nextUntil == 0)
    && 0 < t.connections <= MAX_CONSUMERS && (t.opportunistic != 0 || t.committed != 0)
  }

  // Versions count up, skipping zero when they wrap.
  function NextVersion(v: U64): U64 {
    var n := (v as int + 1) % VERSION_SIZE;
    if n == 0 then 1 else n
  }

  // ------------------------------------------------------------------- lookup

  function FindFrom(cs: seq<Credential>, consumer: Text, i: nat): (r: Option<nat>)
    requires i <= |cs|
    ensures r.Some? ==> i <= r.value < |cs| && cs[r.value].consumer == consumer
    ensures r.None? ==> forall j :: i <= j < |cs| ==> cs[j].consumer != consumer
    decreases |cs| - i
  {
    if i == |cs| then None else if cs[i].consumer == consumer then Some(i) else FindFrom(cs, consumer, i + 1)
  }

  function Find(cs: seq<Credential>, consumer: Text): (r: Option<Credential>)
    ensures r.Some? ==> r.value.consumer == consumer
  {
    match FindFrom(cs, consumer, 0)
    case None => None
    case Some(i) => Some(cs[i])
  }

  // ----------------------------------------------------------------- operations

  function Add(r: Registry, c: Credential, now: Option<nat>): (Registry, Result) {
    if !CredentialValid(c, now) then (r, Invalid)
    else if |r.entries| == MAX_CONSUMERS then (r, Full)
    else if Find(r.entries, c.consumer).Some? then (r, Duplicate)
    else
      var version := NextVersion(r.lastVersion);
      (r.(entries := r.entries + [c.(version := version)], lastVersion := version), Ok)
  }

  function ValidateAuthorization(r: Registry, consumer: Text, version: U64): Result {
    match Find(r.entries, consumer)
    case None => NotFound
    case Some(c) => if c.revoked then Revoked else if c.version != version then Denied else Ok
  }

  function Validate(r: Registry, consumer: Text, version: U64): Result {
    if version == 0 then Invalid else ValidateAuthorization(r, consumer, version)
  }

  predicate HasListener(ls: seq<Listener>, context: nat) { exists i :: 0 <= i < |ls| && ls[i].context == context }

  function Subscribe(r: Registry, consumer: Text, version: U64, context: nat): (Registry, Result) {
    if context == 0 then (r, Invalid)
    else
      match Find(r.entries, consumer)
      case None => (r, NotFound)
      case Some(c) =>
        if c.revoked then (r, Revoked)
        else if version == 0 || c.version != version then (r, Denied)
        else if |r.listeners| == MAX_CONSUMERS then (r, Full)
        else if HasListener(r.listeners, context) then (r, Duplicate)
        else (r.(listeners := r.listeners + [Listener(consumer, context)]), Ok)
  }

  function ListenerFrom(ls: seq<Listener>, context: nat, i: nat): (r: Option<nat>)
    requires i <= |ls|
    ensures r.Some? ==> i <= r.value < |ls| && ls[r.value].context == context
    ensures r.None? ==> forall j :: i <= j < |ls| ==> ls[j].context != context
    decreases |ls| - i
  {
    if i == |ls| then None else if ls[i].context == context then Some(i) else ListenerFrom(ls, context, i + 1)
  }

  // Removal moves the last listener into the freed place.
  function Unsubscribe(r: Registry, context: nat): Registry {
    if context == 0 then r
    else
      match ListenerFrom(r.listeners, context, 0)
      case None => r
      case Some(i) =>
        var n := |r.listeners| - 1;
        r.(listeners := r.listeners[i := r.listeners[n]][..n])
  }

  function ContextsOf(ls: seq<Listener>, consumer: Text): set<nat> {
    set k | 0 <= k < |ls| && ls[k].consumer == consumer :: ls[k].context
  }

  // The registry after, and the contexts called back.
  function Revoke(r: Registry, consumer: Text): (Registry, Result, set<nat>) {
    match FindFrom(r.entries, consumer, 0)
    case None => (r, NotFound, {})
    case Some(i) =>
      var version := NextVersion(r.lastVersion);
      (r.(entries := r.entries[i := r.entries[i].(revoked := true, version := version)], lastVersion := version), Ok,
       ContextsOf(r.listeners, consumer))
  }

  // The reload leaves an authorization in force only when nothing it rests on has changed.
  predicate AuthorizationEqual(left: Option<Credential>, right: Option<Credential>) {
    left.Some? && right.Some? && !right.value.revoked && left.value.terms == right.value.terms
  }

  // What a reload file must contain: valid credentials, one a consumer, not too many.
  predicate EntriesValid(cs: seq<Credential>, now: Option<nat>) {
    && |cs| <= MAX_CONSUMERS && (forall i :: 0 <= i < |cs| ==> CredentialValid(cs[i], now))
    && forall i, j :: 0 <= i < j < |cs| ==> cs[i].consumer != cs[j].consumer
  }

  // The first k new entries with the versions they take over or are given.
  function Reissued(r: Registry, cs: seq<Credential>, k: nat): (out: (seq<Credential>, U64))
    requires k <= |cs|
    ensures |out.0| == k
    ensures forall i :: 0 <= i < k ==> out.0[i].consumer == cs[i].consumer && out.0[i].terms == cs[i].terms
                                       && out.0[i].revoked == cs[i].revoked
  {
    if k == 0 then ([], r.lastVersion)
    else
      var (done, last) := Reissued(r, cs, k - 1);
      var c := cs[k - 1];
      var old' := Find(r.entries, c.consumer);
      if AuthorizationEqual(old', Some(c)) then (done + [c.(version := old'.value.version)], last)
      else (done + [c.(version := NextVersion(last))], NextVersion(last))
  }

  function Reload(r: Registry, cs: seq<Credential>, now: Option<nat>): (Registry, Result, set<nat>) {
    if !EntriesValid(cs, now) then (r, Invalid, {})
    else
      var (entries, last) := Reissued(r, cs, |cs|);
      (r.(entries := entries, lastVersion := last), Ok,
       set k | 0 <= k < |r.listeners|
               && !AuthorizationEqual(Find(r.entries, r.listeners[k].consumer), Find(cs, r.listeners[k].consumer))
             :: r.listeners[k].context)
  }

  // --------------------------------------------------------------- verification

  datatype Verdict = Verified(until: U64, version: U64) | Refused(result: Result)

  function KeyFor(c: Credential, keyId: Text, now: Option<nat>): Option<(Key, U64)> {
    var t := c.terms;
    if t.current.keyId == keyId then Some((t.current, 0))
    else if now.Some? && t.next.secret != [] && t.nextUntil > now.value && t.next.keyId == keyId then Some((t.next, t.nextUntil))
    else None
  }

  function Verify(r: Registry, consumer: Text, keyId: Text, hello: Bytes, challenge: Bytes, tag: Block, now: Option<nat>,
                  mac: (Bytes, Bytes, Bytes) -> Option<Block>): Verdict
  {
    match Find(r.entries, consumer)
    case None => Refused(NotFound)
    case Some(c) =>
      if c.revoked then Refused(Revoked)
      else
        match KeyFor(c, keyId, now)
        case None => Refused(Denied)
        case Some((key, until)) =>
          match mac(key.secret, hello, challenge)
          case None => Refused(CryptoError)
          case Some(expected) => if expected != tag then Refused(Denied) else Verified(until, c.version)
  }

  // ------------------------------------------------------------------------ runs

  datatype Op =
    | DoAdd(credential: Credential, now: Option<nat>)
    | DoRevoke(consumer: Text)
    | DoReload(entries: seq<Credential>, now: Option<nat>)
    | DoSubscribe(consumer: Text, version: U64, context: nat)
    | DoUnsubscribe(context: nat)

  function Step(r: Registry, op: Op): Registry {
    match op
    case DoAdd(c, now) => Add(r, c, now).0
    case DoRevoke(consumer) => Revoke(r, consumer).0
    case DoReload(cs, now) => Reload(r, cs, now).0
    case DoSubscribe(consumer, version, context) => Subscribe(r, consumer, version, context).0
    case DoUnsubscribe(context) => Unsubscribe(r, context)
  }

  function After(r: Registry, ops: seq<Op>, k: nat): Registry
    requires k <= |ops|
  {
    if k == 0 then r else Step(After(r, ops, k - 1), ops[k - 1])
  }

  ghost predicate Inv(r: Registry) {
    && |r.entries| <= MAX_CONSUMERS
    && (forall i :: 0 <= i < |r.entries| ==> 0 < r.entries[i].version <= r.lastVersion)
    && (forall i, j :: 0 <= i < j < |r.entries| ==> r.entries[i].consumer != r.entries[j].consumer)
    && (forall i, j :: 0 <= i < j < |r.listeners| ==> r.listeners[i].context != r.listeners[j].context)
  }

  // No operation issues more versions than there can be consumers, so versions do not wrap within the run.
  ghost predicate RoomFor(r: Registry, steps: nat) { r.lastVersion + steps * MAX_CONSUMERS < VERSION_SIZE }

  lemma FindUnique(cs: seq<Credential>, i: nat)
    requires i < |cs| && forall j, k :: 0 <= j < k < |cs| ==> cs[j].consumer != cs[k].consumer
    ensures FindFrom(cs, cs[i].consumer, 0) == Some(i)
  {}

  lemma FoundVersion(r: Registry, c: Credential)
    requires Inv(r) && AuthorizationEqual(Find(r.entries, c.consumer), Some(c))
    ensures Find(r.entries, c.consumer).Some? && 0 < Find(r.entries, c.consumer).value.version <= r.lastVersion
  {}

  // Each version handed out is larger than all before it.
  lemma {:induction false} ReissuedVersions(r: Registry, cs: seq<Credential>, k: nat)
    requires Inv(r) && k <= |cs| && r.lastVersion + k < VERSION_SIZE
    ensures var (done, last) := Reissued(r, cs, k);
      && r.lastVersion <= last <= r.lastVersion + k
      && forall i :: 0 <= i < k ==> Issued(r, cs[i], done[i].version, last)
  {
    hide Inv, Find, AuthorizationEqual, Issued;
    if k > 0 {
      ReissuedVersions(r, cs, k - 1);
      var before, after := Reissued(r, cs, k - 1), Reissued(r, cs, k);
      IssuedNow(r, cs[k - 1], before.1, after.1, after.0[k - 1].version);
      forall i | 0 <= i < k - 1 ensures Issued(r, cs[i], after.0[i].version, after.1) {
        assert after.0[i] == before.0[i];
        IssuedStays(r, cs[i], before.0[i].version, before.1, after.1);
      }
    }
  }

  // An unchanged authorization takes its version over; any other gets one never given out before.
  ghost predicate Issued(r: Registry, c: Credential, version: U64, last: U64) {
    && 0 < version <= last
    && var before := Find(r.entries, c.consumer);
       if AuthorizationEqual(before, Some(c)) then version == before.value.version else version > r.lastVersion
  }

  lemma IssuedStays(r: Registry, c: Credential, version: U64, last: U64, later: U64)
    requires Issued(r, c, version, last) && last <= later
    ensures Issued(r, c, version, later)
  {}

  lemma IssuedNow(r: Registry, c: Credential, last: U64, later: U64, version: U64)
    requires Inv(r) && r.lastVersion <= last && last + 1 < VERSION_SIZE
    requires var before := Find(r.entries, c.consumer);
      if AuthorizationEqual(before, Some(c)) then version == before.value.version && later == last
      else version == later == NextVersion(last)
    ensures Issued(r, c, version, later) && last <= later <= last + 1
  {
    hide Inv, Find;
    if AuthorizationEqual(Find(r.entries, c.consumer), Some(c)) { FoundVersion(r, c); }
  }

  lemma AddInv(r: Registry, c: Credential, now: Option<nat>)
    requires Inv(r) && r.lastVersion + MAX_CONSUMERS < VERSION_SIZE
    ensures var t := Add(r, c, now).0; Inv(t) && r.lastVersion <= t.lastVersion <= r.lastVersion + MAX_CONSUMERS
  {
    hide CredentialValid;
  }

  lemma ReloadInv(r: Registry, cs: seq<Credential>, now: Option<nat>)
    requires Inv(r) && r.lastVersion + MAX_CONSUMERS < VERSION_SIZE
    ensures var t := Reload(r, cs, now).0; Inv(t) && r.lastVersion <= t.lastVersion <= r.lastVersion + MAX_CONSUMERS
  {
    hide CredentialValid, AuthorizationEqual;
    if EntriesValid(cs, now) { ReissuedVersions(r, cs, |cs|); }
  }

  lemma StepInv(r: Registry, op: Op)
    requires Inv(r) && r.lastVersion + MAX_CONSUMERS < VERSION_SIZE
    ensures Inv(Step(r, op)) && r.lastVersion <= Step(r, op).lastVersion <= r.lastVersion + MAX_CONSUMERS
  {
    hide Add, Reload;
    match op
    case DoAdd(c, now) => AddInv(r, c, now);
    case DoReload(cs, now) => ReloadInv(r, cs, now);
    case _ =>
  }

  lemma {:induction false} RunInv(r: Registry, ops: seq<Op>, k: nat)
    requires Inv(r) && k <= |ops| && RoomFor(r, k)
    ensures var t := After(r, ops, k); Inv(t) && r.lastVersion <= t.lastVersion <= r.lastVersion + k * MAX_CONSUMERS
  {
    hide Step, Inv;
    if k > 0 {
      RunInv(r, ops, k - 1);
      StepInv(After(r, ops, k - 1), ops[k - 1]);
    }
  }

  // ------------------------------------------------------------- what versions prove

  // The consumer's credential is there, not revoked and grants what it granted.
  predicate Standing(r: Registry, consumer: Text, terms: Terms) {
    var c := Find(r.entries, consumer);
    c.Some? && !c.value.revoked && c.value.terms == terms
  }

  // It kept its standing at every point of the run.
  ghost predicate Steady(r: Registry, ops: seq<Op>, k: nat, consumer: Text, terms: Terms)
    requires k <= |ops|
  {
    forall i :: 0 <= i <= k ==> Standing(After(r, ops, i), consumer, terms)
  }

  // The version can no longer be the consumer's.
  ghost predicate Superseded(r: Registry, consumer: Text, version: U64) {
    var c := Find(r.entries, consumer);
    version <= r.lastVersion && (c.Some? ==> c.value.version > version)
  }

  // A step that keeps the credential's standing keeps its version; one that does not supersedes the version for good.
  lemma VersionStep(r: Registry, op: Op, consumer: Text, terms: Terms, version: U64)
    requires Inv(r) && r.lastVersion + MAX_CONSUMERS < VERSION_SIZE
    requires Standing(r, consumer, terms) && Find(r.entries, consumer).value.version == version
    ensures var t := Step(r, op);
      if Standing(t, consumer, terms) then Find(t.entries, consumer).value.version == version
      else Superseded(t, consumer, version)
  {
    hide CredentialValid;
    var i := FindFrom(r.entries, consumer, 0).value;
    match op
    case DoAdd(c, now) =>
      if Find(r.entries, c.consumer).None? { FoundStays(r.entries, c.(version := NextVersion(r.lastVersion)), consumer); }
    case DoRevoke(d) => RevokeFinds(r, d, consumer);
    case DoReload(cs, now) =>
      if EntriesValid(cs, now) {
        ReissuedVersions(r, cs, |cs|);
        ReissuedFinds(r, cs, consumer);
      }
    case _ =>
  }

  lemma FoundStays(cs: seq<Credential>, c: Credential, consumer: Text)
    requires Find(cs, c.consumer).None?
    ensures Find(cs + [c], consumer) == if c.consumer == consumer then Some(c) else Find(cs, consumer)
  {
    FindPrefix(cs, c, consumer, 0);
  }

  lemma {:induction false} FindPrefix(cs: seq<Credential>, c: Credential, consumer: Text, i: nat)
    requires i <= |cs|
    ensures var r := FindFrom(cs, consumer, i);
      FindFrom(cs + [c], consumer, i) == if r.Some? then r else if c.consumer == consumer then Some(|cs|) else None
    decreases |cs| - i
  {
    if i < |cs| {
      FindPrefix(cs, c, consumer, i + 1);
    } else {
      assert (cs + [c])[i] == c;
    }
  }

  lemma RevokeFinds(r: Registry, revoked: Text, consumer: Text)
    requires Inv(r)
    ensures var t := Revoke(r, revoked).0;
      var c := Find(r.entries, consumer);
      Find(t.entries, consumer) ==
        if c.Some? && consumer == revoked then Some(c.value.(revoked := true, version := NextVersion(r.lastVersion))) else c
  {
    var t := Revoke(r, revoked).0;
    var i := FindFrom(r.entries, consumer, 0);
    if i.Some? {
      FindUnique(t.entries, i.value);
    }
  }

  lemma ReissuedFinds(r: Registry, cs: seq<Credential>, consumer: Text)
    requires forall i, j :: 0 <= i < j < |cs| ==> cs[i].consumer != cs[j].consumer
    ensures var done := Reissued(r, cs, |cs|).0;
      FindFrom(done, consumer, 0) == FindFrom(cs, consumer, 0)
  {
    var done := Reissued(r, cs, |cs|).0;
    var i := FindFrom(cs, consumer, 0);
    if i.Some? { FindUnique(done, i.value); }
  }

  lemma SupersededStep(r: Registry, op: Op, consumer: Text, version: U64)
    requires Inv(r) && r.lastVersion + MAX_CONSUMERS < VERSION_SIZE && Superseded(r, consumer, version)
    ensures Superseded(Step(r, op), consumer, version)
  {
    hide CredentialValid;
    match op
    case DoAdd(c, now) =>
      if Find(r.entries, c.consumer).None? { FoundStays(r.entries, c.(version := NextVersion(r.lastVersion)), consumer); }
    case DoRevoke(d) => RevokeFinds(r, d, consumer);
    case DoReload(cs, now) =>
      if EntriesValid(cs, now) {
        ReissuedVersions(r, cs, |cs|);
        ReissuedFinds(r, cs, consumer);
      }
    case _ =>
  }

  // A version obtained from a verification validates later exactly when the credential was never revoked, removed or
  // changed in between, whatever reloads put back afterwards.
  lemma {:induction false} VersionProvesStanding(r: Registry, ops: seq<Op>, k: nat, consumer: Text, terms: Terms, version: U64)
    requires Inv(r) && k <= |ops| && RoomFor(r, k)
    requires Standing(r, consumer, terms) && Find(r.entries, consumer).value.version == version
    ensures var t := After(r, ops, k);
      && (Steady(r, ops, k, consumer, terms) <==> Validate(t, consumer, version) == Ok)
      && if Steady(r, ops, k, consumer, terms) then Find(t.entries, consumer).value.version == version
         else Superseded(t, consumer, version)
  {
    hide Inv, Step, Standing;
    StandingMeans(r, consumer, terms);
    VersionPositive(r, consumer);
    if k == 0 {
      assert Steady(r, ops, 0, consumer, terms) by { assert After(r, ops, 0) == r; }
    } else {
      VersionProvesStanding(r, ops, k - 1, consumer, terms, version);
      RunInv(r, ops, k - 1);
      var s := After(r, ops, k - 1);
      var t := After(r, ops, k);
      if Steady(r, ops, k - 1, consumer, terms) {
        assert Standing(s, consumer, terms);
        VersionStep(s, ops[k - 1], consumer, terms, version);
        if Standing(t, consumer, terms) {
          StandingMeans(t, consumer, terms);
          assert Steady(r, ops, k, consumer, terms);
        } else {
          assert !Steady(r, ops, k, consumer, terms);
        }
      } else {
        SupersededStep(s, ops[k - 1], consumer, version);
        assert !Steady(r, ops, k, consumer, terms);
      }
    }
  }

  lemma StandingMeans(r: Registry, consumer: Text, terms: Terms)
    requires Standing(r, consumer, terms)
    ensures Find(r.entries, consumer).Some? && !Find(r.entries, consumer).value.revoked
  {}

  lemma VersionPositive(r: Registry, consumer: Text)
    requires Inv(r) && Find(r.entries, consumer).Some?
    ensures Find(r.entries, consumer).value.version > 0
  {}

  // ------------------------------------------------------------------- listeners

  // The registry with what its subscribers hold and which of them have been called back since they subscribed.
  datatype World = World(registry: Registry, held: map<nat, (Text, U64)>, called: set<nat>)

  // The contexts a call calls back.
  function Calls(r: Registry, op: Op): set<nat> {
    match op
    case DoRevoke(consumer) => Revoke(r, consumer).2
    case DoReload(cs, now) => Reload(r, cs, now).2
    case _ => {}
  }

  function Observe(w: World, op: Op): World {
    var v := w.(registry := Step(w.registry, op), called := w.called + Calls(w.registry, op));
    match op
    case DoSubscribe(consumer, version, context) =>
      if Subscribe(w.registry, consumer, version, context).1 == Ok
      then v.(held := w.held[context := (consumer, version)], called := w.called - {context}) else v
    case _ => v
  }

  // A subscriber holds a version that validates until it is called back, and one that is superseded for good from then on.
  ghost predicate Informed(w: World, l: Listener) {
    && l.context in w.held && w.held[l.context].0 == l.consumer
    && var version := w.held[l.context].1;
       if l.context in w.called then Superseded(w.registry, l.consumer, version)
       else Validate(w.registry, l.consumer, version) == Ok
  }

  ghost predicate AllInformed(w: World) {
    forall i :: 0 <= i < |w.registry.listeners| ==> Informed(w, w.registry.listeners[i])
  }

  lemma RevokeCallsOnLoss(r: Registry, consumer: Text, i: nat, terms: Terms)
    requires Inv(r) && i < |r.listeners| && Standing(r, r.listeners[i].consumer, terms)
    ensures r.listeners[i].context in Revoke(r, consumer).2 <==> !Standing(Revoke(r, consumer).0, r.listeners[i].consumer, terms)
  {
    hide Find;
    RevokeFinds(r, consumer, r.listeners[i].consumer);
    assert Find(r.entries, r.listeners[i].consumer).Some?;
    if r.listeners[i].consumer == consumer { FoundSome(r.entries, consumer); }
  }

  lemma FoundSome(cs: seq<Credential>, consumer: Text)
    ensures Find(cs, consumer).Some? <==> FindFrom(cs, consumer, 0).Some?
  {}

  lemma ReloadCallsOnLoss(r: Registry, cs: seq<Credential>, now: Option<nat>, i: nat, terms: Terms)
    requires Inv(r) && i < |r.listeners| && Standing(r, r.listeners[i].consumer, terms)
    ensures r.listeners[i].context in Reload(r, cs, now).2 <==> !Standing(Reload(r, cs, now).0, r.listeners[i].consumer, terms)
  {
    hide CredentialValid, FindFrom;
    if EntriesValid(cs, now) { ReissuedFinds(r, cs, r.listeners[i].consumer); }
  }

  // A listener is called back exactly when its authorization ends.
  lemma CallsOnLoss(r: Registry, op: Op, i: nat, terms: Terms)
    requires Inv(r) && i < |r.listeners| && Standing(r, r.listeners[i].consumer, terms)
    ensures r.listeners[i].context in Calls(r, op) <==> !Standing(Step(r, op), r.listeners[i].consumer, terms)
  {
    hide Inv, Add, Revoke, Reload, Standing;
    var consumer := r.listeners[i].consumer;
    match op
    case DoRevoke(d) => RevokeCallsOnLoss(r, d, i, terms);
    case DoReload(cs, now) => ReloadCallsOnLoss(r, cs, now, i, terms);
    case DoAdd(c, now) => AddStands(r, c, now, consumer, terms);
    case DoSubscribe(_, _, _) => SameEntriesStand(r, Step(r, op), consumer, terms);
    case DoUnsubscribe(_) => SameEntriesStand(r, Step(r, op), consumer, terms);
  }

  lemma AddStands(r: Registry, c: Credential, now: Option<nat>, consumer: Text, terms: Terms)
    requires Standing(r, consumer, terms)
    ensures Standing(Add(r, c, now).0, consumer, terms)
  {
    hide CredentialValid, Find;
    if Find(r.entries, c.consumer).None? { FoundStays(r.entries, c.(version := NextVersion(r.lastVersion)), consumer); }
  }

  lemma SameEntriesStand(r: Registry, t: Registry, consumer: Text, terms: Terms)
    requires Standing(r, consumer, terms) && t.entries == r.entries
    ensures Standing(t, consumer, terms)
  {}

  // One call keeps one listener informed.
  lemma ListenerInformed(w: World, op: Op, i: nat)
    requires Inv(w.registry) && w.registry.lastVersion + MAX_CONSUMERS < VERSION_SIZE
    requires i < |w.registry.listeners| && Informed(w, w.registry.listeners[i])
    ensures Informed(w.(registry := Step(w.registry, op), called := w.called + Calls(w.registry, op)), w.registry.listeners[i])
  {
    hide Inv, Step, Calls, Find, Standing;
    var r, l := w.registry, w.registry.listeners[i];
    var version := w.held[l.context].1;
    if l.context in w.called {
      SupersededStep(r, op, l.consumer, version);
    } else {
      var terms := Find(r.entries, l.consumer).value.terms;
      FoundStands(r, l.consumer);
      CallsOnLoss(r, op, i, terms);
      VersionStep(r, op, l.consumer, terms, version);
      if Standing(Step(r, op), l.consumer, terms) { StandingMeans(Step(r, op), l.consumer, terms); }
    }
  }

  lemma FoundStands(r: Registry, consumer: Text)
    requires Find(r.entries, consumer).Some? && !Find(r.entries, consumer).value.revoked
    ensures Standing(r, consumer, Find(r.entries, consumer).value.terms)
  {}

  lemma ObserveInforms(w: World, op: Op)
    requires Inv(w.registry) && AllInformed(w) && w.registry.lastVersion + MAX_CONSUMERS < VERSION_SIZE
    ensures AllInformed(Observe(w, op)) && Observe(w, op).registry == Step(w.registry, op)
  {
    hide Inv, Informed, Step, Calls, Subscribe;
    var r, v := w.registry, Observe(w, op);
    forall k | 0 <= k < |v.registry.listeners| ensures Informed(v, v.registry.listeners[k]) {
      if op.DoSubscribe? {
        if k < |r.listeners| { ListenerInformed(w, op, k); }
        NewListener(w, op.consumer, op.version, op.context, k);
      } else {
        var i := ListenedBefore(r, op, k);
        ListenerInformed(w, op, i);
      }
    }
  }

  // Where a listener stood before the call.
  lemma ListenedBefore(r: Registry, op: Op, k: nat) returns (i: nat)
    requires k < |Step(r, op).listeners| && !op.DoSubscribe?
    ensures i < |r.listeners| && r.listeners[i] == Step(r, op).listeners[k]
  {
    hide Find, Reissued, EntriesValid, CredentialValid;
    i := k;
    if op.DoUnsubscribe? && Step(r, op).listeners[k] != r.listeners[k] { i := |r.listeners| - 1; }
  }

  lemma NewListener(w: World, consumer: Text, version: U64, context: nat, k: nat)
    requires Inv(w.registry)
    requires var v := Observe(w, DoSubscribe(consumer, version, context)); k < |v.registry.listeners|
    requires var op := DoSubscribe(consumer, version, context);
      var v := w.(registry := Step(w.registry, op), called := w.called + Calls(w.registry, op));
      k < |w.registry.listeners| ==> Informed(v, w.registry.listeners[k])
    ensures var v := Observe(w, DoSubscribe(consumer, version, context)); Informed(v, v.registry.listeners[k])
  {
    hide Find;
    var r, v := w.registry, Observe(w, DoSubscribe(consumer, version, context));
    if Subscribe(r, consumer, version, context).1 == Ok && k < |r.listeners| {
      assert v.registry.listeners[k] == r.listeners[k] && r.listeners[k].context != context;
    }
  }

  ghost function Watch(w: World, ops: seq<Op>): World
    decreases |ops|
  {
    if ops == [] then w else Watch(Observe(w, ops[0]), ops[1..])
  }

  // After any calls, a listed subscriber has been called back exactly when the version it holds no longer validates.
  lemma {:induction false} SubscribersAreInformed(w: World, ops: seq<Op>)
    requires Inv(w.registry) && AllInformed(w) && RoomFor(w.registry, |ops|)
    ensures var v := Watch(w, ops);
      && AllInformed(v)
      && forall i :: 0 <= i < |v.registry.listeners| ==>
           var l := v.registry.listeners[i];
           l.context in v.called <==> Validate(v.registry, l.consumer, v.held[l.context].1) != Ok
    decreases |ops|
  {
    hide Inv, Step, Informed, Validate;
    if ops != [] {
      var v := Observe(w, ops[0]);
      StepInv(w.registry, ops[0]);
      ObserveInforms(w, ops[0]);
      SubscribersAreInformed(v, ops[1..]);
    } else {
      forall i | 0 <= i < |w.registry.listeners|
        ensures var l := w.registry.listeners[i];
          l.context in w.held && (l.context in w.called <==> Validate(w.registry, l.consumer, w.held[l.context].1) != Ok)
      {
        InformedMeans(w, w.registry.listeners[i]);
      }
    }
  }

  lemma InformedMeans(w: World, l: Listener)
    requires Informed(w, l)
    ensures l.context in w.held && (l.context in w.called <==> Validate(w.registry, l.consumer, w.held[l.context].1) != Ok)
  {}
}
