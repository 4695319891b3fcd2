/**
 The wire protocol between Consumer and Provider: a 48-byte header and thirteen
 kinds of message. Encoding and decoding are each other's inverse, but for HELLO
 identifiers that carry a zero byte on the wire.
 */
module Wire {
  import opened Options
  import opened WireBytes

  const MAGIC: U32 := 0x49535750
  const MAJOR: U16 := 1
  const MINOR_CURRENT: U16 := 1
  const MINOR_PREVIOUS: U16 := 0
  const MINOR_NEXT: U16 := 2
  const HEADER_SIZE: nat := 48
  const MAX_FRAME_SIZE: nat := 4096
  const BLOCK_SIZE: nat := 32
  const CONSUMER_ID_MAX: nat := 63
  const KEY_ID_MAX: nat := 31
  const DEADLINE_MIN: nat := 500
  const DEADLINE_MAX: nat := 30000
  const MAX_CHUNKS_PER_FRAME: nat := 128
  const FLAG_RESPONSE: U16 := 1
  const FLAGS_KNOWN: U16 := 3
  const CAPABILITIES_KNOWN: U64 := 0x7F
  const U32_MAX: nat := 0xFFFF_FFFF

  const HELLO_FIXED_SIZE: nat := 40
  const LIST_HEADER_SIZE: nat := 4
  const CHUNK_SIZE: nat := 24
  const CHUNK_ID_SIZE: nat := 4
  const ACTIVITY_SIZE: nat := 12

  const MODE_BACKED: U8 := 1
  const MODE_REMOTE_ONLY: U8 := 2
  const POOL_OPPORTUNISTIC: U8 := 1
  const POOL_COMMITTED: U8 := 2

  datatype Fault =
    InvalidArgument | BufferTooSmall | BadMagic | UnsupportedVersion | Oversized | Truncated | TrailingData | UnknownMessage
    | UnknownRequiredCapability | InvalidCapabilities | InvalidPayload | IntegerOverflow

  // ----------------------------------------------------------------- messages

  // A nonce or an authentication tag.
  type Block = b: Bytes | |b| == BLOCK_SIZE witness seq(BLOCK_SIZE, _ => 0)

  datatype ChunkEntry = ChunkEntry(logical: U32, provider: U32, address: U64, key: U32, pool: U8)
  datatype ActivityEntry = ActivityEntry(provider: U32, activity: U64)

  type ForeignType = t: U16 | t == 0 || t > 13 witness 0

  datatype Payload =
    | Hello(consumer: Text, keyId: Text, nonce: Block, mode: U8, pool: U8, deadline: U32)
    | Challenge(nonce: Block, minor: U16)
    | Auth(tag: Block)
    | Accept(minor: U16)
    | StatusRequest
    | Status(opportunistic: U32, committed: U32, deadline: U32, flags: U32)
    | ChunkRequest(count: U32, start: U32, pool: U8)
    | ChunkGrant(chunks: seq<ChunkEntry>)
    | Evict(ids: seq<U32>)
    | Activity(entries: seq<ActivityEntry>)
    | Release(ids: seq<U32>)
    | Goodbye
    | Error(code: U16, offending: U16, retryable: U8)
    | Foreign(kind: ForeignType)

  function TypeOf(p: Payload): U16 {
    match p
    case Hello(_, _, _, _, _, _) => 1
    case Challenge(_, _) => 2
    case Auth(_) => 3
    case Accept(_) => 4
    case StatusRequest => 5
    case Status(_, _, _, _) => 6
    case ChunkRequest(_, _, _) => 7
    case ChunkGrant(_) => 8
    case Evict(_) => 9
    case Activity(_) => 10
    case Release(_) => 11
    case Goodbye => 12
    case Error(_, _, _) => 13
    case Foreign(kind) => kind
  }

  datatype Header = Header(
    major: U16, minor: U16, flags: U16, requestId: U64, sessionId: U64, capabilities: U64, required: U64)

  datatype Message = Message(header: Header, payload: Payload)

  // --------------------------------------------------------------- validation

  predicate MinorValid(m: U16) { m == MINOR_CURRENT || m == MINOR_PREVIOUS || m == MINOR_NEXT }
  predicate PoolValid(p: U8) { p == POOL_OPPORTUNISTIC || p == POOL_COMMITTED }
  predicate DeadlineValid(d: U32) { DEADLINE_MIN <= d <= DEADLINE_MAX }

  predicate FlagsValid(kind: U16, flags: U16) {
    if kind in {2, 4, 6, 8, 10} then flags == FLAG_RESPONSE
    else if kind == 11 then flags == 0 || flags == FLAG_RESPONSE
    else if kind == 13 then flags == FLAGS_KNOWN
    else flags == 0
  }

  function HeaderFault(h: Header, kind: U16): Option<Fault> {
    if h.major != MAJOR || !MinorValid(h.minor) then Some(UnsupportedVersion)
    else if !(1 <= kind <= 13) then Some(UnknownMessage)
    else if !BitsWithin(h.required, CAPABILITIES_KNOWN) then Some(UnknownRequiredCapability)
    else if !BitsWithin(h.required, h.capabilities) then Some(InvalidCapabilities)
    else if h.requestId == 0 || !BitsWithin(h.flags, FLAGS_KNOWN) || !FlagsValid(kind, h.flags) then Some(InvalidPayload)
    else if kind <= 3 && h.sessionId != 0 then Some(InvalidPayload)
    else if kind > 3 && kind != 13 && h.sessionId == 0 then Some(InvalidPayload)
    else None
  }

  predicate IdentifierByte(c: U8) {
    97 <= c <= 122 || 65 <= c <= 90 || 48 <= c <= 57 || c == 46 || c == 95 || c == 45
  }

  predicate IdentifierValid(t: Text, maximum: nat) {
    0 < |t| <= maximum && forall i :: 0 <= i < |t| ==> IdentifierByte(t[i])
  }

  predicate HelloValid(p: Payload)
    requires p.Hello?
  {
    && IdentifierValid(p.consumer, CONSUMER_ID_MAX) && IdentifierValid(p.keyId, KEY_ID_MAX)
    && (p.mode == MODE_BACKED || p.mode == MODE_REMOTE_ONLY) && PoolValid(p.pool) && DeadlineValid(p.deadline)
    && (p.mode == MODE_BACKED ==> p.pool == POOL_OPPORTUNISTIC)
    && (p.mode == MODE_REMOTE_ONLY ==> p.pool == POOL_COMMITTED)
  }

  // The last chunk asked for still has a 32-bit number.
  predicate RequestValid(count: U32, start: U32, pool: U8) {
    0 < count <= MAX_CHUNKS_PER_FRAME && count - 1 <= U32_MAX - start && PoolValid(pool)
  }

  predicate GrantEntryValid(c: ChunkEntry) { PoolValid(c.pool) && c.address != 0 && c.key != 0 }

  predicate GrantsValid(cs: seq<ChunkEntry>) {
    && (forall i :: 0 <= i < |cs| ==> GrantEntryValid(cs[i]))
    && forall i, j :: 0 <= i < j < |cs| ==> cs[i].logical != cs[j].logical && cs[i].provider != cs[j].provider
  }

  predicate IdsDistinct(ids: seq<U32>) { forall i, j :: 0 <= i < j < |ids| ==> ids[i] != ids[j] }

  predicate ActivityDistinct(es: seq<ActivityEntry>) {
    forall i, j :: 0 <= i < j < |es| ==> es[i].provider != es[j].provider
  }

  predicate CountValid(n: nat) { 0 < n <= MAX_CHUNKS_PER_FRAME }

  predicate PayloadValid(p: Payload) {
    match p
    case Hello(_, _, _, _, _, _) => HelloValid(p)
    case Challenge(_, minor) => MinorValid(minor)
    case Auth(_) => true
    case Accept(minor) => MinorValid(minor)
    case StatusRequest => true
    case Status(_, _, deadline, _) => DeadlineValid(deadline)
    case ChunkRequest(count, start, pool) => RequestValid(count, start, pool)
    case ChunkGrant(chunks) => CountValid(|chunks|) && GrantsValid(chunks)
    case Evict(ids) => CountValid(|ids|) && IdsDistinct(ids)
    case Activity(entries) => CountValid(|entries|) && ActivityDistinct(entries)
    case Release(ids) => CountValid(|ids|) && IdsDistinct(ids)
    case Goodbye => true
    case Error(code, _, retryable) => 1 <= code <= 9 && retryable <= 1
    case Foreign(_) => false
  }

  // ------------------------------------------------------------------ encoding

  function ChunkBytes(c: ChunkEntry): (b: Bytes)
    ensures |b| == CHUNK_SIZE
  {
    Put32(c.logical) + Put32(c.provider) + Put64(c.address) + Put32(c.key) + [c.pool, 0, 0, 0]
  }

  function ActivityBytes(e: ActivityEntry): (b: Bytes)
    ensures |b| == ACTIVITY_SIZE
  {
    Put32(e.provider) + Put64(e.activity)
  }

  // A list carries its length, two reserved bytes and the entries.
  function ListBytes(n: U16, entries: seq<Bytes>): Bytes { Put16(n) + Put16(0) + Flatten(entries) }

  function ChunkEntries(cs: seq<ChunkEntry>): (r: seq<Bytes>)
    ensures |r| == |cs| && forall i :: 0 <= i < |r| ==> r[i] == ChunkBytes(cs[i])
  {
    seq(|cs|, i requires 0 <= i < |cs| => ChunkBytes(cs[i]))
  }

  function IdEntries(ids: seq<U32>): (r: seq<Bytes>)
    ensures |r| == |ids| && forall i :: 0 <= i < |r| ==> r[i] == Put32(ids[i])
  {
    seq(|ids|, i requires 0 <= i < |ids| => Put32(ids[i]))
  }

  function ActivityEntries(es: seq<ActivityEntry>): (r: seq<Bytes>)
    ensures |r| == |es| && forall i :: 0 <= i < |r| ==> r[i] == ActivityBytes(es[i])
  {
    seq(|es|, i requires 0 <= i < |es| => ActivityBytes(es[i]))
  }

  function PayloadBytes(p: Payload): Bytes
    requires PayloadValid(p)
  {
    match p
    case Hello(consumer, keyId, nonce, mode, pool, deadline) =>
      [|consumer| as U8, |keyId| as U8, mode, pool] + Put32(deadline) + nonce + consumer + keyId
    case Challenge(nonce, minor) => nonce + Put16(minor) + Put16(0)
    case Auth(tag) => tag
    case Accept(minor) => Put16(minor) + Put16(0)
    case StatusRequest => []
    case Status(opportunistic, committed, deadline, flags) =>
      Put32(opportunistic) + Put32(committed) + Put32(deadline) + Put32(flags)
    case ChunkRequest(count, start, pool) => Put32(count) + Put32(start) + [pool, 0, 0, 0]
    case ChunkGrant(chunks) => ListBytes(|chunks|, ChunkEntries(chunks))
    case Evict(ids) => ListBytes(|ids|, IdEntries(ids))
    case Activity(entries) => ListBytes(|entries|, ActivityEntries(entries))
    case Release(ids) => ListBytes(|ids|, IdEntries(ids))
    case Goodbye => []
    case Error(code, offending, retryable) => Put16(code) + Put16(offending) + [retryable, 0, 0, 0]
  }

  function HeaderBytes(h: Header, kind: U16, size: U32): (b: Bytes)
    ensures |b| == HEADER_SIZE
  {
    Put32(MAGIC) + Put16(h.major) + Put16(h.minor) + Put16(kind) + Put16(h.flags) + Put32(size)
    + Put64(h.requestId) + Put64(h.sessionId) + Put64(h.capabilities) + Put64(h.required)
  }

  datatype Encoded = Frame(bytes: Bytes) | EncodeFault(fault: Fault)

  function Encode(m: Message, capacity: nat): Encoded {
    var kind := TypeOf(m.payload);
    if HeaderFault(m.header, kind).Some? then EncodeFault(HeaderFault(m.header, kind).value)
    else if !PayloadValid(m.payload) then EncodeFault(InvalidPayload)
    else
      var payload := PayloadBytes(m.payload);
      if |payload| > MAX_FRAME_SIZE - HEADER_SIZE then EncodeFault(Oversized)
      else if capacity < HEADER_SIZE + |payload| then EncodeFault(BufferTooSmall)
      else Frame(HeaderBytes(m.header, kind, |payload|) + payload)
  }

  // ------------------------------------------------------------------ decoding

  predicate Reserved(b: Bytes, i: nat, n: nat)
    requires i + n <= |b|
  {
    forall k :: i <= k < i + n ==> b[k] == 0
  }

  // A list's length against the bytes that are there.
  function ListFault(size: nat, n: nat, entry: nat): Option<Fault>
    requires entry > 0
  {
    if n == 0 then Some(InvalidPayload)
    else if n > (MAX_FRAME_SIZE - LIST_HEADER_SIZE) / entry then Some(IntegerOverflow)
    else if n > MAX_CHUNKS_PER_FRAME then Some(InvalidPayload)
    else if size != LIST_HEADER_SIZE + n * entry then Some(InvalidPayload)
    else None
  }

  datatype Parsed = Got(payload: Payload) | Bad(fault: Fault)

  function Checked(p: Payload): Parsed { if PayloadValid(p) then Got(p) else Bad(InvalidPayload) }

  function ParseHello(b: Bytes): Parsed {
    if |b| < HELLO_FIXED_SIZE then Bad(InvalidPayload)
    else
      var c, k := b[0], b[1];
      if c == 0 || c > CONSUMER_ID_MAX || k == 0 || k > KEY_ID_MAX || c as int + k as int != |b| - HELLO_FIXED_SIZE then Bad(InvalidPayload)
      else
        Checked(Hello(TextOf(b[HELLO_FIXED_SIZE..HELLO_FIXED_SIZE + c]), TextOf(b[HELLO_FIXED_SIZE + c..]),
                      b[8..HELLO_FIXED_SIZE], b[2], b[3], Get32(b, 4)))
  }

  function ChunkFrom(b: Bytes): ChunkEntry
    requires |b| == CHUNK_SIZE
  {
    ChunkEntry(Get32(b, 0), Get32(b, 4), Get64(b, 8), Get32(b, 16), b[20])
  }

  function ActivityFrom(b: Bytes): ActivityEntry
    requires |b| == ACTIVITY_SIZE
  {
    ActivityEntry(Get32(b, 0), Get64(b, 4))
  }

  // The entries of a list whose length has been checked.
  function ListEntries(b: Bytes, entry: nat): (r: seq<Bytes>)
    requires |b| >= LIST_HEADER_SIZE && entry > 0 && ListFault(|b|, Get16(b, 0), entry).None?
    ensures |r| == Get16(b, 0) && Uniform(r, entry)
  {
    Entries(b[LIST_HEADER_SIZE..], entry, Get16(b, 0))
  }

  function ListHeadFault(b: Bytes, entry: nat): Option<Fault>
    requires entry > 0
  {
    if |b| < LIST_HEADER_SIZE || !Reserved(b, 2, 2) then Some(InvalidPayload) else ListFault(|b|, Get16(b, 0), entry)
  }

  function ParseGrant(b: Bytes): Parsed {
    var fault := ListHeadFault(b, CHUNK_SIZE);
    if fault.Some? then Bad(fault.value)
    else
      var es := ListEntries(b, CHUNK_SIZE);
      if exists i :: 0 <= i < |es| && !Reserved(es[i], 21, 3) then Bad(InvalidPayload)
      else Checked(ChunkGrant(seq(|es|, i requires 0 <= i < |es| => ChunkFrom(es[i]))))
  }

  function IdsFrom(es: seq<Bytes>): (r: seq<U32>)
    requires Uniform(es, CHUNK_ID_SIZE)
    ensures |r| == |es| && forall i :: 0 <= i < |r| ==> r[i] == Get32(es[i], 0)
  {
    seq(|es|, i requires 0 <= i < |es| => Get32(es[i], 0))
  }

  function ParseIds(b: Bytes, releasing: bool): Parsed {
    var fault := ListHeadFault(b, CHUNK_ID_SIZE);
    if fault.Some? then Bad(fault.value)
    else
      var ids := IdsFrom(ListEntries(b, CHUNK_ID_SIZE));
      Checked(if releasing then Release(ids) else Evict(ids))
  }

  function ParseActivity(b: Bytes): Parsed {
    var fault := ListHeadFault(b, ACTIVITY_SIZE);
    if fault.Some? then Bad(fault.value)
    else
      var es := ListEntries(b, ACTIVITY_SIZE);
      Checked(Activity(seq(|es|, i requires 0 <= i < |es| => ActivityFrom(es[i]))))
  }

  function ParsePayload(kind: U16, b: Bytes): Parsed {
    match kind
    case 1 => ParseHello(b)
    case 2 => if |b| != 36 || !Reserved(b, 34, 2) then Bad(InvalidPayload) else Checked(Challenge(b[..32], Get16(b, 32)))
    case 3 => if |b| != 32 then Bad(InvalidPayload) else Got(Auth(b))
    case 4 => if |b| != 4 || !Reserved(b, 2, 2) then Bad(InvalidPayload) else Checked(Accept(Get16(b, 0)))
    case 5 => if |b| != 0 then Bad(InvalidPayload) else Got(StatusRequest)
    case 6 =>
      if |b| != 16 then Bad(InvalidPayload)
      else Checked(Status(Get32(b, 0), Get32(b, 4), Get32(b, 8), Get32(b, 12)))
    case 7 =>
      if |b| != 12 || !Reserved(b, 9, 3) then Bad(InvalidPayload)
      else Checked(ChunkRequest(Get32(b, 0), Get32(b, 4), b[8]))
    case 8 => ParseGrant(b)
    case 9 => ParseIds(b, false)
    case 10 => ParseActivity(b)
    case 11 => ParseIds(b, true)
    case 12 => if |b| != 0 then Bad(InvalidPayload) else Got(Goodbye)
    case 13 =>
      if |b| != 8 || !Reserved(b, 5, 3) then Bad(InvalidPayload)
      else Checked(Error(Get16(b, 0), Get16(b, 2), b[4]))
    case _ => Bad(UnknownMessage)
  }

  datatype Decoded = Heard(message: Message) | DecodeFault(fault: Fault)

  function HeaderFrom(f: Bytes): Header
    requires |f| >= HEADER_SIZE
  {
    Header(Get16(f, 4), Get16(f, 6), Get16(f, 10), Get64(f, 16), Get64(f, 24), Get64(f, 32), Get64(f, 40))
  }

  function Decode(f: Bytes): Decoded {
    if |f| > MAX_FRAME_SIZE then DecodeFault(Oversized)
    else if |f| < HEADER_SIZE then DecodeFault(Truncated)
    else if Get32(f, 0) != MAGIC then DecodeFault(BadMagic)
    else
      var h, kind, size := HeaderFrom(f), Get16(f, 8), Get32(f, 12);
      if size > MAX_FRAME_SIZE - HEADER_SIZE then DecodeFault(Oversized)
      else if size > |f| - HEADER_SIZE then DecodeFault(Truncated)
      else if size < |f| - HEADER_SIZE then DecodeFault(TrailingData)
      else if HeaderFault(h, kind).Some? then DecodeFault(HeaderFault(h, kind).value)
      else
        match ParsePayload(kind, f[HEADER_SIZE..])
        case Got(payload) => Heard(Message(h, payload))
        case Bad(fault) => DecodeFault(fault)
  }

  // ---------------------------------------------------------------- negotiation

  datatype Agreement = Agreed(minor: U16, capabilities: U64) | Disagreed(fault: Fault)

  function Negotiate(
    localMinor: U16, localOffer: U64, localNeed: U64, peerMinor: U16, peerOffer: U64, peerNeed: U64): Agreement
  {
    var apart := if localMinor > peerMinor then localMinor - peerMinor else peerMinor - localMinor;
    var need, shared := BitOr(localNeed, peerNeed), BitAnd(localOffer, peerOffer);
    if !MinorValid(localMinor) || !MinorValid(peerMinor) || apart > 1 then Disagreed(UnsupportedVersion)
    else if !BitsWithin(need, CAPABILITIES_KNOWN) then Disagreed(UnknownRequiredCapability)
    else if !BitsWithin(localNeed, localOffer) || !BitsWithin(peerNeed, peerOffer) then Disagreed(InvalidCapabilities)
    else if !BitsWithin(need, shared) then Disagreed(UnknownRequiredCapability)
    else Agreed(if localMinor < peerMinor then localMinor else peerMinor, shared)
  }

  // Negotiation succeeds exactly when each side understands the other's version and offers, within what is known, what
  // the other needs. What is agreed is the older version and exactly the capabilities both offer.
  lemma NegotiationMeets(localMinor: U16, localOffer: U64, localNeed: U64, peerMinor: U16, peerOffer: U64, peerNeed: U64)
    ensures var r := Negotiate(localMinor, localOffer, localNeed, peerMinor, peerOffer, peerNeed);
      && (r.Agreed? <==>
            && MinorValid(localMinor) && MinorValid(peerMinor) && localMinor <= peerMinor + 1 && peerMinor <= localMinor + 1
            && BitsWithin(localNeed, CAPABILITIES_KNOWN) && BitsWithin(peerNeed, CAPABILITIES_KNOWN)
            && BitsWithin(localNeed, localOffer) && BitsWithin(localNeed, peerOffer)
            && BitsWithin(peerNeed, localOffer) && BitsWithin(peerNeed, peerOffer))
      && (r.Agreed? ==>
            && r.minor in {localMinor, peerMinor} && r.minor <= localMinor && r.minor <= peerMinor
            && forall bits: U64 :: BitsWithin(bits, r.capabilities) <==> BitsWithin(bits, localOffer) && BitsWithin(bits, peerOffer))
  {
    hide BitsWithin, BitAnd, BitOr;
    OrWithin(localNeed, peerNeed, CAPABILITIES_KNOWN);
    OrWithin(localNeed, peerNeed, BitAnd(localOffer, peerOffer));
    WithinAnd(localNeed, localOffer, peerOffer);
    WithinAnd(peerNeed, localOffer, peerOffer);
    forall bits: U64
      ensures BitsWithin(bits, BitAnd(localOffer, peerOffer)) <==> BitsWithin(bits, localOffer) && BitsWithin(bits, peerOffer)
    {
      WithinAnd(bits, localOffer, peerOffer);
    }
  }
}
