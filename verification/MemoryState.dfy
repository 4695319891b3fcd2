/**
 The Provider's memory manager: a table of one-gibibyte chunks in an
 opportunistic and a committed pool, connections with quotas, Host Reserve,
 conversion between the pools, rollback and quarantine. Every entry runs under
 one lock, so each is one function from state to state. What the accounting,
 allocation and registration adapters answer is a parameter of the call; the
 sets `live` and `registered` record what those adapters hold.
 */
module MemoryState {
  import opened Options

  const GIB: nat := 1073741824
  const MAX_RUNTIME_CHUNKS: nat := 128
  const CONSUMER_ID_MAX: nat := 63

  datatype Pool = Opportunistic | Committed

  datatype Counts = Counts(opportunistic: int, committed: int)

  function Of(c: Counts, p: Pool): int { if p.Opportunistic? then c.opportunistic else c.committed }

  function Plus(c: Counts, p: Pool, k: int): Counts {
    if p.Opportunistic? then c.(opportunistic := c.opportunistic + k) else c.(committed := c.committed + k)
  }

  type Sizes = c: Counts | c.opportunistic >= 0 && c.committed >= 0 witness Counts(0, 0)

  // Zero stands for no address, no registration and no owner.
  datatype Slot = Slot(address: nat, registration: nat, owner: nat, pool: Option<Pool>, quarantined: bool)
  const EMPTY := Slot(0, 0, 0, None, false)

  datatype Limits = Limits(connections: nat, chunks: Sizes)
  datatype Connection = Connection(consumer: string, owner: nat, limits: Limits, granted: Counts)
  datatype Config = Config(reserve: nat, maximum: Sizes)

  datatype State = State(
    config: Config, slots: seq<Slot>, connections: seq<Connection>,
    allocation: Counts, granted: Counts, quarantined: int, healthy: bool,
    live: set<nat>, registered: set<nat>)

  datatype Result =
    Ok | InvalidArgument | AccountingFailed | AllocationFailed | TouchFailed | RegistrationFailed | CleanupFailed
    | ConnectionLimit | QuotaExceeded | PoolExhausted | HostReserve | NotConnected | NotFound | CommittedProtected

  // What allocating and touching one chunk gives.
  datatype Allocation = Refused | Untouchable(address: nat) | Usable(address: nat)

  // The adapters' answers during one call. `stuck` says which deregistrations fail.
  datatype Adapters = Adapters(
    scratch: bool, reading: Option<nat>, allocate: nat -> Allocation, register: nat -> nat, stuck: nat -> bool)

  // ------------------------------------------------------------ connections

  function FindConnection(cs: seq<Connection>, owner: nat, i: nat): (r: Option<nat>)
    requires i <= |cs|
    ensures r.Some? ==> i <= r.value < |cs| && cs[r.value].owner == owner
    ensures r.None? ==> forall j :: i <= j < |cs| ==> cs[j].owner != owner
    decreases |cs| - i
  {
    if i == |cs| then None else if cs[i].owner == owner then Some(i) else FindConnection(cs, owner, i + 1)
  }

  function ConnectionsOf(cs: seq<Connection>, consumer: string): nat {
    if cs == [] then 0
    else ConnectionsOf(cs[..|cs| - 1], consumer) + if cs[|cs| - 1].consumer == consumer then 1 else 0
  }

  function ConsumerTotal(cs: seq<Connection>, consumer: string, p: Pool): int {
    if cs == [] then 0
    else ConsumerTotal(cs[..|cs| - 1], consumer, p)
         + if cs[|cs| - 1].consumer == consumer then Of(cs[|cs| - 1].granted, p) else 0
  }

  predicate IdentifierChar(c: char) {
    'a' <= c <= 'z' || 'A' <= c <= 'Z' || '0' <= c <= '9' || c == '.' || c == '_' || c == '-'
  }

  predicate ConsumerIdValid(id: string) {
    0 < |id| <= CONSUMER_ID_MAX && forall i :: 0 <= i < |id| ==> IdentifierChar(id[i])
  }

  // Every connection of a consumer carries the same limits.
  predicate LimitsAgree(cs: seq<Connection>, consumer: string, limits: Limits) {
    forall i :: 0 <= i < |cs| && cs[i].consumer == consumer ==> cs[i].limits == limits
  }

  function Connect(s: State, consumer: string, owner: nat, limits: Limits, room: bool): (State, Result) {
    if !ConsumerIdValid(consumer) || owner == 0 || limits.connections == 0
       || limits.chunks == Counts(0, 0) then (s, InvalidArgument)
    else if FindConnection(s.connections, owner, 0).Some? then (s, InvalidArgument)
    else if ConnectionsOf(s.connections, consumer) >= limits.connections then (s, ConnectionLimit)
    else if !LimitsAgree(s.connections, consumer, limits) then (s, InvalidArgument)
    else if !room then (s, AllocationFailed)
    else (s.(connections := s.connections + [Connection(consumer, owner, limits, Counts(0, 0))]), Ok)
  }

  // -------------------------------------------------------------- releasing

  datatype Cause = ByConsumer | ByPressure | ByDisconnect | ByShutdown

  function ReleaseOne(s: State, c: nat, id: nat, cause: Cause, stuck: bool): (State, Result)
    requires c < |s.connections| && id < |s.slots|
  {
    var slot := s.slots[id];
    if slot.registration != 0 && stuck then (s.(healthy := false), CleanupFailed)
    else
      var pool := if slot.pool == Some(Opportunistic) then Opportunistic else Committed;
      var connection := s.connections[c].(granted := Plus(s.connections[c].granted, pool, -1));
      var frees := cause.ByPressure? || pool.Committed?;
      var slot' := if frees then slot.(address := 0, registration := 0, owner := 0, pool := None)
                   else slot.(registration := 0, owner := 0);
      (s.(slots := s.slots[id := slot'], connections := s.connections[c := connection],
          granted := Plus(s.granted, pool, -1),
          allocation := if frees then Plus(s.allocation, pool, -1) else s.allocation,
          live := if frees then s.live - {slot.address} else s.live,
          registered := s.registered - {slot.registration}),
       Ok)
  }

  // The state after the first k releases, or after the first that fails.
  function ReleaseFirst(s: State, c: nat, ids: seq<nat>, cause: Cause, a: Adapters, k: nat): (r: (State, Result))
    requires c < |s.connections| && k <= |ids| && forall i :: 0 <= i < |ids| ==> ids[i] < |s.slots|
    ensures |r.0.slots| == |s.slots| && |r.0.connections| == |s.connections|
  {
    if k == 0 then (s, Ok)
    else
      var (t, result) := ReleaseFirst(s, c, ids, cause, a, k - 1);
      if result != Ok then (t, result) else ReleaseOne(t, c, ids[k - 1], cause, a.stuck(k - 1))
  }

  // The first reason to refuse a batch, looking at the entries before k.
  function ReleaseRefusal(s: State, owner: nat, ids: seq<nat>, cause: Cause, k: nat): Result
    requires k <= |ids|
  {
    if k == 0 then Ok
    else
      var before := ReleaseRefusal(s, owner, ids, cause, k - 1);
      var id := ids[k - 1];
      if before != Ok then before
      else if id >= |s.slots| || s.slots[id].owner != owner then NotFound
      else if cause.ByPressure? && s.slots[id].pool == Some(Committed) then CommittedProtected
      else if id in ids[..k - 1] then InvalidArgument
      else Ok
  }

  lemma {:induction false} AcceptedInTable(s: State, owner: nat, ids: seq<nat>, cause: Cause, k: nat)
    requires k <= |ids| && ReleaseRefusal(s, owner, ids, cause, k) == Ok
    ensures forall i :: 0 <= i < k ==> ids[i] < |s.slots| && s.slots[ids[i]].owner == owner && ids[i] !in ids[..i]
    ensures forall i :: 0 <= i < k && cause.ByPressure? ==> s.slots[ids[i]].pool != Some(Committed)
  {
    if k > 0 { AcceptedInTable(s, owner, ids, cause, k - 1); }
  }

  function Release(s: State, owner: nat, ids: seq<nat>, cause: Cause, a: Adapters): (State, Result) {
    if owner == 0 || ids == [] then (s, InvalidArgument)
    else
      match FindConnection(s.connections, owner, 0)
      case None => (s, NotConnected)
      case Some(c) =>
        var refusal := ReleaseRefusal(s, owner, ids, cause, |ids|);
        if refusal != Ok then (s, refusal)
        else
          AcceptedInTable(s, owner, ids, cause, |ids|);
          ReleaseFirst(s, c, ids, cause, a, |ids|)
  }

  // The state once the chunks below index k have been given up, or one of them could not be.
  function GiveUpBelow(s: State, c: nat, owner: nat, a: Adapters, k: nat): (r: (State, Result))
    requires c < |s.connections| && k <= |s.slots|
    ensures |r.0.slots| == |s.slots| && |r.0.connections| == |s.connections|
  {
    if k == 0 then (s, Ok)
    else
      var (t, result) := GiveUpBelow(s, c, owner, a, k - 1);
      if result != Ok || t.slots[k - 1].owner != owner then (t, result)
      else ReleaseOne(t, c, k - 1, ByDisconnect, a.stuck(k - 1))
  }

  // Removal moves the last connection into the freed place.
  function RemoveConnection(cs: seq<Connection>, c: nat): seq<Connection>
    requires c < |cs|
  {
    cs[c := cs[|cs| - 1]][..|cs| - 1]
  }

  function Disconnect(s: State, owner: nat, a: Adapters): (State, Result) {
    if owner == 0 then (s, InvalidArgument)
    else
      match FindConnection(s.connections, owner, 0)
      case None => (s, NotConnected)
      case Some(c) =>
        var (t, result) := GiveUpBelow(s, c, owner, a, |s.slots|);
        if result != Ok then (t, result) else (t.(connections := RemoveConnection(t.connections, c)), Ok)
  }

  // -------------------------------------------------------------- acquiring

  predicate IsFree(slot: Slot, p: Pool) {
    slot.address != 0 && slot.owner == 0 && slot.registration == 0 && !slot.quarantined && slot.pool == Some(p)
  }

  // Table positions below i that satisfy the choice, at most `want` of them, in order.
  function FreeBelow(slots: seq<Slot>, p: Pool, want: nat, i: nat): (r: seq<nat>)
    requires i <= |slots|
    ensures |r| <= want && forall k :: 0 <= k < |r| ==> r[k] < i && IsFree(slots[r[k]], p)
    ensures forall j, k :: 0 <= j < k < |r| ==> r[j] < r[k]
  {
    if i == 0 then []
    else
      var r := FreeBelow(slots, p, want, i - 1);
      if |r| < want && IsFree(slots[i - 1], p) then r + [i - 1] else r
  }

  function EmptyBelow(slots: seq<Slot>, want: nat, i: nat): (r: seq<nat>)
    requires i <= |slots|
    ensures |r| <= want && forall k :: 0 <= k < |r| ==> r[k] < i && slots[r[k]].address == 0
    ensures forall j, k :: 0 <= j < k < |r| ==> r[j] < r[k]
  {
    if i == 0 then []
    else
      var r := EmptyBelow(slots, want, i - 1);
      if |r| < want && slots[i - 1].address == 0 then r + [i - 1] else r
  }

  // A chosen table position: free in the requested pool, converted, or to be allocated.
  datatype Origin = SamePool | Converted | Fresh
  datatype Pending = Pending(index: nat, origin: Origin)

  function Tagged(indices: seq<nat>, origin: Origin): (r: seq<Pending>)
    ensures |r| == |indices| && forall k :: 0 <= k < |r| ==> r[k] == Pending(indices[k], origin)
  {
    seq(|indices|, k requires 0 <= k < |indices| => Pending(indices[k], origin))
  }

  // Chunks of the requested pool first, then opportunistic ones for a committed request, then new memory.
  function Selection(slots: seq<Slot>, p: Pool, n: nat): (r: seq<Pending>)
    ensures |r| <= n
  {
    var same := FreeBelow(slots, p, n, |slots|);
    var converted := if p.Committed? then FreeBelow(slots, Opportunistic, n - |same|, |slots|) else [];
    var created := EmptyBelow(slots, n - |same| - |converted|, |slots|);
    Tagged(same, SamePool) + Tagged(converted, Converted) + Tagged(created, Fresh)
  }

  function CountOf(ps: seq<Pending>, origin: Origin): nat {
    if ps == [] then 0 else CountOf(ps[..|ps| - 1], origin) + if ps[|ps| - 1].origin == origin then 1 else 0
  }

  // The quota, pool and Host Reserve checks, in the order they are made.
  function Admit(s: State, c: nat, p: Pool, n: nat, reading: Option<nat>): Result
    requires c < |s.connections|
  {
    var consumer := s.connections[c].consumer;
    var taken := ConsumerTotal(s.connections, consumer, p);
    var quota := Of(s.connections[c].limits.chunks, p);
    var ps := Selection(s.slots, p, n);
    if taken > quota || n > quota - taken then QuotaExceeded
    else if |ps| != n then PoolExhausted
    else if Of(s.allocation, p) > Of(s.config.maximum, p)
         || n - CountOf(ps, SamePool) > Of(s.config.maximum, p) - Of(s.allocation, p) then PoolExhausted
    else if CountOf(ps, Fresh) == 0 then Ok
    else if reading.None? then AccountingFailed
    else if reading.value / GIB < s.config.reserve + CountOf(ps, Fresh) then HostReserve
    else Ok
  }

  // The first position from i on whose memory cannot be allocated and touched.
  function AllocationStop(ps: seq<Pending>, a: Adapters, i: nat): (r: nat)
    requires i <= |ps|
    ensures i <= r <= |ps|
    ensures forall k :: i <= k < r && ps[k].origin.Fresh? ==> a.allocate(k).Usable?
    ensures r < |ps| ==> ps[r].origin.Fresh? && !a.allocate(r).Usable?
    decreases |ps| - i
  {
    if i == |ps| || (ps[i].origin.Fresh? && !a.allocate(i).Usable?) then i else AllocationStop(ps, a, i + 1)
  }

  function RegistrationStop(n: nat, a: Adapters, i: nat): (r: nat)
    requires i <= n
    ensures i <= r <= n && (r < n ==> a.register(r) == 0)
    ensures forall k :: i <= k < r ==> a.register(k) != 0
    decreases n - i
  {
    if i == n || a.register(i) == 0 then i else RegistrationStop(n, a, i + 1)
  }

  function AddressAt(s: State, ps: seq<Pending>, a: Adapters, k: nat): nat
    requires k < |ps| && ps[k].index < |s.slots|
  {
    if !ps[k].origin.Fresh? then s.slots[ps[k].index].address
    else if a.allocate(k).Refused? then 0 else a.allocate(k).address
  }

  // A chunk whose registration could not be undone is kept out of use, counted in a pool.
  function QuarantineOne(s: State, ps: seq<Pending>, p: Pool, a: Adapters, k: nat): (t: State)
    requires k < |ps| && ps[k].index < |s.slots|
    ensures |t.slots| == |s.slots|
  {
    var address := AddressAt(s, ps, a, k);
    var slot := s.slots[ps[k].index];
    var fresh' := ps[k].origin.Fresh?;
    s.(slots := s.slots[ps[k].index := Slot(address, a.register(k), slot.owner, if fresh' then Some(p) else slot.pool, true)],
       allocation := if fresh' then Plus(s.allocation, p, 1) else s.allocation,
       quarantined := s.quarantined + 1,
       live := if fresh' then s.live + {address} else s.live,
       registered := s.registered + {a.register(k)})
  }

  function QuarantineFirst(s: State, ps: seq<Pending>, p: Pool, a: Adapters, k: nat): (t: State)
    requires k <= |ps| && forall i :: 0 <= i < |ps| ==> ps[i].index < |s.slots|
    ensures |t.slots| == |s.slots|
  {
    if k == 0 then s
    else
      var t := QuarantineFirst(s, ps, p, a, k - 1);
      if a.stuck(k - 1) then QuarantineOne(t, ps, p, a, k - 1) else t
  }

  predicate SomeStuck(a: Adapters, k: nat) { exists i :: 0 <= i < k && a.stuck(i) }

  function InstallOne(s: State, c: nat, ps: seq<Pending>, p: Pool, a: Adapters, k: nat): (t: State)
    requires c < |s.connections| && k < |ps| && ps[k].index < |s.slots|
    ensures |t.slots| == |s.slots| && |t.connections| == |s.connections|
  {
    var address := AddressAt(s, ps, a, k);
    var moved := if ps[k].origin.Converted? then Plus(s.allocation, Opportunistic, -1) else s.allocation;
    var connection := s.connections[c].(granted := Plus(s.connections[c].granted, p, 1));
    s.(slots := s.slots[ps[k].index :=
         Slot(address, a.register(k), s.connections[c].owner, Some(p), s.slots[ps[k].index].quarantined)],
       allocation := if ps[k].origin.SamePool? then moved else Plus(moved, p, 1),
       granted := Plus(s.granted, p, 1),
       connections := s.connections[c := connection],
       live := if ps[k].origin.Fresh? then s.live + {address} else s.live,
       registered := s.registered + {a.register(k)})
  }

  function InstallFirst(s: State, c: nat, ps: seq<Pending>, p: Pool, a: Adapters, k: nat): (t: State)
    requires c < |s.connections| && k <= |ps| && forall i :: 0 <= i < |ps| ==> ps[i].index < |s.slots|
    ensures |t.slots| == |s.slots| && |t.connections| == |s.connections|
  {
    if k == 0 then s else InstallOne(InstallFirst(s, c, ps, p, a, k - 1), c, ps, p, a, k - 1)
  }

  datatype Grant = Grant(chunk: nat, address: nat, registration: nat, pool: Pool)

  function GrantsOf(s: State, ps: seq<Pending>, p: Pool, a: Adapters): seq<Grant>
    requires forall i :: 0 <= i < |ps| ==> ps[i].index < |s.slots|
  {
    seq(|ps|, k requires 0 <= k < |ps| => Grant(ps[k].index, AddressAt(s, ps, a, k), a.register(k), p))
  }

  // Allocate, register and install the chosen chunks; on a failure undo what was done, or quarantine it.
  function Carry(s: State, c: nat, ps: seq<Pending>, p: Pool, a: Adapters): (State, Result, seq<Grant>)
    requires c < |s.connections| && forall i :: 0 <= i < |ps| ==> ps[i].index < |s.slots|
  {
    var stop := AllocationStop(ps, a, 0);
    var last := RegistrationStop(|ps|, a, 0);
    if stop < |ps| then (s, if a.allocate(stop).Refused? then AllocationFailed else TouchFailed, [])
    else if last < |ps| then
      var t := QuarantineFirst(s, ps, p, a, last);
      if SomeStuck(a, last) then (t.(healthy := false), CleanupFailed, []) else (t, RegistrationFailed, [])
    else (InstallFirst(s, c, ps, p, a, |ps|), Ok, GrantsOf(s, ps, p, a))
  }

  function Acquire(s: State, owner: nat, p: Pool, n: nat, a: Adapters): (State, Result, seq<Grant>) {
    if owner == 0 || n == 0 then (s, InvalidArgument, [])
    else if !a.scratch then (s, AllocationFailed, [])
    else
      match FindConnection(s.connections, owner, 0)
      case None => (s, NotConnected, [])
      case Some(c) =>
        var verdict := Admit(s, c, p, n, a.reading);
        var ps := Selection(s.slots, p, n);
        SelectionInTable(s.slots, p, n);
        if verdict != Ok then (s, verdict, []) else Carry(s, c, ps, p, a)
  }

  lemma SelectionInTable(slots: seq<Slot>, p: Pool, n: nat)
    ensures forall i :: 0 <= i < |Selection(slots, p, n)| ==> Selection(slots, p, n)[i].index < |slots|
  {
    hide FreeBelow, EmptyBelow, IsFree;
    var same := FreeBelow(slots, p, n, |slots|);
    var converted := if p.Committed? then FreeBelow(slots, Opportunistic, n - |same|, |slots|) else [];
    var created := EmptyBelow(slots, n - |same| - |converted|, |slots|);
    var a, b, c := Tagged(same, SamePool), Tagged(converted, Converted), Tagged(created, Fresh);
    forall i | 0 <= i < |a + b + c| ensures (a + b + c)[i].index < |slots| {
      assert (a + b + c)[i] ==
        if i < |a| then a[i] else if i < |a| + |b| then b[i - |a|] else c[i - |a| - |b|];
    }
  }

  // ------------------------------------------------------------- reconciling

  datatype Change = Change(grown: nat, reclaimed: nat, needed: nat)
  const NO_CHANGE := Change(0, 0, 0)

  // How many opportunistic chunks the host has room for.
  function Target(s: State, bytes: nat): int {
    var effective := bytes / GIB + s.allocation.opportunistic;
    if effective <= s.config.reserve then 0
    else if effective - s.config.reserve >= s.config.maximum.opportunistic then s.config.maximum.opportunistic
    else effective - s.config.reserve
  }

  function PlaceFirst(s: State, ps: seq<Pending>, a: Adapters, k: nat): (t: State)
    requires k <= |ps| && forall i :: 0 <= i < |ps| ==> ps[i].index < |s.slots|
    ensures |t.slots| == |s.slots|
  {
    if k == 0 then s
    else
      var t := PlaceFirst(s, ps, a, k - 1);
      var address := AddressAt(t, ps, a, k - 1);
      var slot := t.slots[ps[k - 1].index];
      t.(slots := t.slots[ps[k - 1].index := slot.(address := address, pool := Some(Opportunistic))],
         allocation := Plus(t.allocation, Opportunistic, 1), live := t.live + {address})
  }

  function Grow(s: State, n: nat, a: Adapters): (State, Result) {
    if n == 0 then (s, Ok)
    else if !a.scratch then (s, AllocationFailed)
    else
      var ps := Tagged(EmptyBelow(s.slots, n, |s.slots|), Fresh);
      if |ps| != n then (s, PoolExhausted)
      else
        var stop := AllocationStop(ps, a, 0);
        if stop < |ps| then (s, if a.allocate(stop).Refused? then AllocationFailed else TouchFailed)
        else (PlaceFirst(s, ps, a, |ps|), Ok)
  }

  predicate IsReclaimable(slot: Slot) {
    slot.address != 0 && slot.owner == 0 && !slot.quarantined && slot.pool == Some(Opportunistic)
  }

  // Frees unassigned opportunistic chunks below index i until `want` are gone.
  function ReclaimBelow(s: State, want: int, i: nat): (r: (State, nat))
    requires i <= |s.slots|
    ensures |r.0.slots| == |s.slots| && (want >= 0 ==> r.1 <= want)
    ensures forall j :: i <= j < |s.slots| ==> r.0.slots[j] == s.slots[j]
  {
    if i == 0 then (s, 0)
    else
      var (t, k) := ReclaimBelow(s, want, i - 1);
      if k < want && IsReclaimable(t.slots[i - 1]) then
        (t.(slots := t.slots[i - 1 := EMPTY], allocation := Plus(t.allocation, Opportunistic, -1),
            live := t.live - {t.slots[i - 1].address}), k + 1)
      else (t, k)
  }

  function Reconcile(s: State, a: Adapters): (State, Result, Change) {
    if a.reading.None? then (s, AccountingFailed, NO_CHANGE)
    else
      var target := Target(s, a.reading.value);
      var held := s.allocation.opportunistic;
      if target > held then
        var (t, result) := Grow(s, target - held, a);
        (t, result, if result == Ok then Change(target - held, 0, 0) else NO_CHANGE)
      else
        var wanted := if target < s.granted.opportunistic then s.granted.opportunistic else target;
        var (t, k) := ReclaimBelow(s, held - wanted, |s.slots|);
        (t, Ok, Change(0, k, if s.granted.opportunistic > target then s.granted.opportunistic - target else 0))
  }

  // ------------------------------------------------------------------ status

  function Quarantined(slots: seq<Slot>, p: Pool): set<int> {
    set i | 0 <= i < |slots| && slots[i].quarantined && slots[i].pool == Some(p)
  }

  function Least(a: int, b: int): int { if a < b then a else b }

  // The chunks the status reports as available in a pool, to anyone or to one consumer.
  function Available(s: State, c: Option<nat>, p: Pool, bytes: nat): int
    requires c.Some? ==> c.value < |s.connections|
  {
    var safe := if bytes / GIB > s.config.reserve then bytes / GIB - s.config.reserve else 0;
    var unassigned := s.allocation.opportunistic - s.granted.opportunistic - |Quarantined(s.slots, Opportunistic)|;
    var room := Of(s.config.maximum, p) - Of(s.allocation, p);
    var general := if p.Opportunistic? then unassigned + Least(safe, room) else Least(unassigned + safe, room);
    if c.None? then general
    else
      Least(general, Of(s.connections[c.value].limits.chunks, p)
                     - ConsumerTotal(s.connections, s.connections[c.value].consumer, p))
  }

  // --------------------------------------------------------------- lifetime

  predicate ConfigValid(c: Config) {
    0 < c.maximum.opportunistic + c.maximum.committed <= MAX_RUNTIME_CHUNKS
  }

  function Create(c: Config): State
    requires ConfigValid(c)
  {
    State(c, seq(c.maximum.opportunistic + c.maximum.committed, _ => EMPTY), [], Counts(0, 0), Counts(0, 0), 0, true, {}, {})
  }
}
