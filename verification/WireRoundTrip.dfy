/**
 Encoding and decoding are inverse to each other: every message that can be
 encoded decodes to itself, and every frame that can be decoded encodes to itself
 exactly when its HELLO identifiers, if any, hold no zero byte.
 */
module WireRoundTrip {
  import opened Options
  import opened WireBytes
  import opened Wire

  // ------------------------------------------------------------- fixed layouts

  lemma ReservedPair(b: Bytes, i: nat)
    requires i + 2 <= |b|
    ensures Reserved(b, i, 2) <==> b[i..i + 2] == Put16(0)
  {
    var x := b[i..i + 2];
    assert x[0] == b[i] && x[1] == b[i + 1];
    if Reserved(b, i, 2) { assert x == [0, 0]; }
  }

  lemma ReservedTriple(b: Bytes, i: nat, v: U8)
    requires i + 4 <= |b|
    ensures b[i] == v && Reserved(b, i + 1, 3) <==> b[i..i + 4] == [v, 0, 0, 0]
  {
    var x := b[i..i + 4];
    assert x[0] == b[i] && x[1] == b[i + 1] && x[2] == b[i + 2] && x[3] == b[i + 3];
    if b[i] == v && Reserved(b, i + 1, 3) { assert x == [v, 0, 0, 0]; }
  }

  lemma ChallengeExact(b: Bytes, nonce: Block, minor: U16)
    ensures b == nonce + Put16(minor) + Put16(0) <==>
      |b| == 36 && Reserved(b, 34, 2) && b[..32] == nonce && Get16(b, 32) == minor
  {
    hide Put16, Get16, Reserved;
    if |b| == 36 {
      PutGet16(b, 32, minor);
      ReservedPair(b, 34);
      assert b == b[..32] + b[32..34] + b[34..36];
    }
    var c := nonce + Put16(minor) + Put16(0);
    assert c[..32] == nonce && c[32..34] == Put16(minor) && c[34..36] == Put16(0);
  }

  lemma AcceptExact(b: Bytes, minor: U16)
    ensures b == Put16(minor) + Put16(0) <==> |b| == 4 && Reserved(b, 2, 2) && Get16(b, 0) == minor
  {
    hide Put16, Get16, Reserved;
    if |b| == 4 {
      PutGet16(b, 0, minor);
      ReservedPair(b, 2);
      assert b == b[0..2] + b[2..4];
    }
    var c := Put16(minor) + Put16(0);
    assert c[0..2] == Put16(minor) && c[2..4] == Put16(0);
  }

  lemma StatusExact(b: Bytes, w: U32, x: U32, y: U32, z: U32)
    ensures b == Put32(w) + Put32(x) + Put32(y) + Put32(z) <==>
      |b| == 16 && Get32(b, 0) == w && Get32(b, 4) == x && Get32(b, 8) == y && Get32(b, 12) == z
  {
    hide Put32, Get32;
    if |b| == 16 {
      PutGet32(b, 0, w);
      PutGet32(b, 4, x);
      PutGet32(b, 8, y);
      PutGet32(b, 12, z);
      assert b == b[0..4] + b[4..8] + b[8..12] + b[12..16];
    }
    var c := Put32(w) + Put32(x) + Put32(y) + Put32(z);
    assert c[0..4] == Put32(w) && c[4..8] == Put32(x) && c[8..12] == Put32(y) && c[12..16] == Put32(z);
  }

  lemma RequestExact(b: Bytes, count: U32, start: U32, pool: U8)
    ensures b == Put32(count) + Put32(start) + [pool, 0, 0, 0] <==>
      |b| == 12 && Reserved(b, 9, 3) && Get32(b, 0) == count && Get32(b, 4) == start && b[8] == pool
  {
    hide Put32, Get32, Reserved;
    if |b| == 12 {
      PutGet32(b, 0, count);
      PutGet32(b, 4, start);
      ReservedTriple(b, 8, pool);
      assert b == b[0..4] + b[4..8] + b[8..12];
    }
    var c := Put32(count) + Put32(start) + [pool, 0, 0, 0];
    assert c[0..4] == Put32(count) && c[4..8] == Put32(start) && c[8..12] == [pool, 0, 0, 0];
  }

  lemma ErrorExact(b: Bytes, code: U16, offending: U16, retryable: U8)
    ensures b == Put16(code) + Put16(offending) + [retryable, 0, 0, 0] <==>
      |b| == 8 && Reserved(b, 5, 3) && Get16(b, 0) == code && Get16(b, 2) == offending && b[4] == retryable
  {
    hide Put16, Get16, Reserved;
    if |b| == 8 {
      PutGet16(b, 0, code);
      PutGet16(b, 2, offending);
      ReservedTriple(b, 4, retryable);
      assert b == b[0..2] + b[2..4] + b[4..8];
    }
    var c := Put16(code) + Put16(offending) + [retryable, 0, 0, 0];
    assert c[0..2] == Put16(code) && c[2..4] == Put16(offending) && c[4..8] == [retryable, 0, 0, 0];
  }

  lemma ChunkExact(b: Bytes, c: ChunkEntry)
    requires |b| == CHUNK_SIZE
    ensures b == ChunkBytes(c) <==> ChunkFrom(b) == c && Reserved(b, 21, 3)
  {
    hide Put32, Get32, Put64, Get64, Reserved;
    PutGet32(b, 0, c.logical);
    PutGet32(b, 4, c.provider);
    PutGet64(b, 8, c.address);
    PutGet32(b, 16, c.key);
    ReservedTriple(b, 20, c.pool);
    ChunkSlices(c);
    ChunkJoins(b);
    ChunkJoins(ChunkBytes(c));
  }

  lemma ChunkSlices(c: ChunkEntry)
    ensures var d := ChunkBytes(c);
      && d[0..4] == Put32(c.logical) && d[4..8] == Put32(c.provider) && d[8..16] == Put64(c.address)
      && d[16..20] == Put32(c.key) && d[20..24] == [c.pool, 0, 0, 0]
  {
    hide Put32, Put64;
    FiveParts(Put32(c.logical), Put32(c.provider), Put64(c.address), Put32(c.key), [c.pool, 0, 0, 0]);
  }

  lemma FiveParts(v: Bytes, w: Bytes, x: Bytes, y: Bytes, z: Bytes)
    ensures var d := v + w + x + y + z;
      var i, j, k := |v| + |w|, |v| + |w| + |x|, |v| + |w| + |x| + |y|;
      d[..|v|] == v && d[|v|..i] == w && d[i..j] == x && d[j..k] == y && d[k..] == z
  {}

  lemma ChunkJoins(b: Bytes)
    requires |b| == CHUNK_SIZE
    ensures b == b[0..4] + b[4..8] + b[8..16] + b[16..20] + b[20..24]
  {}

  lemma ActivityExact(b: Bytes, e: ActivityEntry)
    requires |b| == ACTIVITY_SIZE
    ensures b == ActivityBytes(e) <==> ActivityFrom(b) == e
  {
    hide Put32, Get32, Put64, Get64;
    PutGet32(b, 0, e.provider);
    PutGet64(b, 4, e.activity);
    assert b == b[0..4] + b[4..12];
    var d := ActivityBytes(e);
    assert d[0..4] == Put32(e.provider) && d[4..12] == Put64(e.activity);
  }

  lemma IdExact(b: Bytes, id: U32)
    requires |b| == CHUNK_ID_SIZE
    ensures b == Put32(id) <==> Get32(b, 0) == id
  {
    hide Put32, Get32;
    PutGet32(b, 0, id);
    assert b[0..4] == b;
  }

  // ---------------------------------------------------------------------- lists

  // A list reads back as its entries, and only the list with those entries does.
  lemma ListReads(n: U16, entries: seq<Bytes>, size: nat)
    requires EntrySize(size) && n == |entries| && CountValid(n) && Uniform(entries, size)
    ensures var b := ListBytes(n, entries);
      && |b| == LIST_HEADER_SIZE + n * size && Get16(b, 0) == n && ListHeadFault(b, size).None?
      && ListEntries(b, size) == entries
  {
    hide Put16, Get16, Flatten, Entries, Reserved;
    var b := ListBytes(n, entries);
    SplitJoined(entries, size);
    assert b[0..2] == Put16(n) && b[2..4] == Put16(0) && b[4..] == Flatten(entries);
    PutGet16(b, 0, n);
    ReservedPair(b, 2);
    CountFits(n, size);
  }

  predicate EntrySize(size: nat) { size == CHUNK_SIZE || size == CHUNK_ID_SIZE || size == ACTIVITY_SIZE }

  // A valid count never trips the overflow check, nor the frame limit.
  lemma CountFits(n: nat, size: nat)
    requires n <= MAX_CHUNKS_PER_FRAME && EntrySize(size)
    ensures n <= (MAX_FRAME_SIZE - LIST_HEADER_SIZE) / size && n * size <= MAX_CHUNKS_PER_FRAME * CHUNK_SIZE
  {}

  lemma ListWrites(b: Bytes, size: nat)
    requires size > 0 && ListHeadFault(b, size).None?
    ensures CountValid(Get16(b, 0)) && ListBytes(Get16(b, 0), ListEntries(b, size)) == b
  {
    hide Put16, Get16, Flatten, Entries, Reserved;
    var n := Get16(b, 0);
    PutGet16(b, 0, n);
    ReservedPair(b, 2);
    JoinSplit(b[LIST_HEADER_SIZE..], size, n);
    assert b == b[0..2] + b[2..4] + b[4..];
  }

  // ------------------------------------------------------------ message to bytes

  lemma HelloReads(p: Payload)
    requires p.Hello? && HelloValid(p)
    ensures ParseHello(PayloadBytes(p)) == Got(p)
  {
    hide Put32, Get32, IdentifierByte;
    var b := PayloadBytes(p);
    var c, k := |p.consumer|, |p.keyId|;
    assert |b| == HELLO_FIXED_SIZE + c + k;
    assert b[0] == c && b[1] == k && b[2] == p.mode && b[3] == p.pool;
    assert b[4..8] == Put32(p.deadline) && b[8..40] == p.nonce;
    assert b[40..40 + c] == p.consumer && b[40 + c..] == p.keyId;
    PutGet32(b, 4, p.deadline);
    TextWhole(p.consumer);
    TextWhole(p.keyId);
  }

  lemma GrantReads(cs: seq<ChunkEntry>)
    requires PayloadValid(ChunkGrant(cs))
    ensures ParseGrant(PayloadBytes(ChunkGrant(cs))) == Got(ChunkGrant(cs))
  {
    hide ListEntries, ListHeadFault, ChunkBytes, ChunkFrom, ListBytes, Reserved, GrantsValid;
    var es := ChunkEntries(cs);
    ListReads(|cs|, es, CHUNK_SIZE);
    forall i | 0 <= i < |es| ensures ChunkFrom(es[i]) == cs[i] && Reserved(es[i], 21, 3) { ChunkExact(es[i], cs[i]); }
    assert seq(|es|, i requires 0 <= i < |es| => ChunkFrom(es[i])) == cs;
  }

  lemma IdsRead(ids: seq<U32>, releasing: bool)
    requires CountValid(|ids|) && IdsDistinct(ids)
    ensures ParseIds(ListBytes(|ids|, IdEntries(ids)), releasing) == Got(if releasing then Release(ids) else Evict(ids))
  {
    hide ListEntries, ListHeadFault, Put32, Get32, ListBytes;
    var es := IdEntries(ids);
    ListReads(|ids|, es, CHUNK_ID_SIZE);
    forall i | 0 <= i < |es| ensures Get32(es[i], 0) == ids[i] { IdExact(es[i], ids[i]); }
    assert IdsFrom(es) == ids;
  }

  lemma ActivityReads(xs: seq<ActivityEntry>)
    requires PayloadValid(Activity(xs))
    ensures ParseActivity(PayloadBytes(Activity(xs))) == Got(Activity(xs))
  {
    hide ListEntries, ListHeadFault, ActivityBytes, ActivityFrom, ListBytes;
    var es := ActivityEntries(xs);
    ListReads(|xs|, es, ACTIVITY_SIZE);
    forall i | 0 <= i < |es| ensures ActivityFrom(es[i]) == xs[i] { ActivityExact(es[i], xs[i]); }
    assert seq(|es|, i requires 0 <= i < |es| => ActivityFrom(es[i])) == xs;
  }

  lemma PayloadReads(p: Payload)
    requires PayloadValid(p)
    ensures ParsePayload(TypeOf(p), PayloadBytes(p)) == Got(p)
  {
    hide Put16, Get16, Put32, Get32, Reserved, ParseHello, ParseGrant, ParseIds, ParseActivity, HelloValid, GrantsValid,
      IdsDistinct, ActivityDistinct, ListBytes;
    var b := PayloadBytes(p);
    match p
    case Hello(_, _, _, _, _, _) => HelloReads(p);
    case Challenge(nonce, minor) => ChallengeExact(b, nonce, minor);
    case Auth(_) =>
    case Accept(minor) => AcceptExact(b, minor);
    case StatusRequest =>
    case Status(w, x, y, z) => StatusExact(b, w, x, y, z);
    case ChunkRequest(count, start, pool) => RequestExact(b, count, start, pool);
    case ChunkGrant(chunks) => GrantReads(chunks);
    case Evict(ids) => IdsRead(ids, false);
    case Activity(entries) => ActivityReads(entries);
    case Release(ids) => IdsRead(ids, true);
    case Goodbye =>
    case Error(code, offending, retryable) => ErrorExact(b, code, offending, retryable);
  }

  // ------------------------------------------------------------ bytes to message

  // The identifier bytes of a HELLO hold a zero.
  ghost predicate ZeroInIdentifiers(kind: U16, b: Bytes) {
    kind == 1 && |b| >= HELLO_FIXED_SIZE && 0 in b[HELLO_FIXED_SIZE..]
  }

  // What the pieces of a HELLO are, whether or not its identifiers hold a zero.
  lemma HelloPieces(b: Bytes)
    requires ParseHello(b).Got?
    ensures |b| >= HELLO_FIXED_SIZE
    ensures var p, c := ParseHello(b).payload, b[0] as int;
      && p.Hello? && HelloValid(p) && HELLO_FIXED_SIZE + c <= |b| && |b| == HELLO_FIXED_SIZE + c + b[1] as int
      && p.consumer == TextOf(b[HELLO_FIXED_SIZE..HELLO_FIXED_SIZE + c]) && p.keyId == TextOf(b[HELLO_FIXED_SIZE + c..])
      && p.nonce == b[8..HELLO_FIXED_SIZE] && p.mode == b[2] && p.pool == b[3] && Get32(b, 4) == p.deadline
  {
    hide HelloValid, Get32, TextOf;
  }

  lemma HelloSize(p: Payload)
    requires p.Hello? && HelloValid(p)
    ensures |PayloadBytes(p)| == HELLO_FIXED_SIZE + |p.consumer| + |p.keyId|
  {
    hide Put32, IdentifierByte;
  }

  lemma HelloWrites(b: Bytes)
    requires ParseHello(b).Got?
    ensures var p := ParseHello(b).payload;
      && p.Hello? && HelloValid(p) && (PayloadBytes(p) == b <==> !ZeroInIdentifiers(1, b))
      && (ZeroInIdentifiers(1, b) ==> |PayloadBytes(p)| < |b|)
  {
    hide ParseHello, HelloValid, Put32, Get32, TextOf, PayloadBytes;
    HelloPieces(b);
    var p, c := ParseHello(b).payload, b[0] as int;
    var ids, key := b[HELLO_FIXED_SIZE..HELLO_FIXED_SIZE + c], b[HELLO_FIXED_SIZE + c..];
    TextWhole(ids);
    TextWhole(key);
    HelloSize(p);
    assert b[HELLO_FIXED_SIZE..] == ids + key;
    if !ZeroInIdentifiers(1, b) { HelloWhole(b, p, ids, key); }
  }

  lemma HelloWhole(b: Bytes, p: Payload, ids: Bytes, key: Bytes)
    requires |b| >= HELLO_FIXED_SIZE && b[HELLO_FIXED_SIZE..] == ids + key && |ids| == b[0] && |key| == b[1]
    requires p.Hello? && HelloValid(p) && p.consumer == ids && p.keyId == key
    requires p.nonce == b[8..HELLO_FIXED_SIZE] && p.mode == b[2] && p.pool == b[3] && Get32(b, 4) == p.deadline
    ensures PayloadBytes(p) == b
  {
    hide HelloValid, Put32, Get32;
    PutGet32(b, 4, p.deadline);
    assert b == [b[0], b[1], b[2], b[3]] + b[4..8] + b[8..40] + b[40..];
  }

  lemma GrantWrites(b: Bytes)
    requires ParseGrant(b).Got?
    ensures var p := ParseGrant(b).payload; p.ChunkGrant? && PayloadValid(p) && PayloadBytes(p) == b
  {
    hide ListEntries, ChunkBytes, ChunkFrom, ListBytes, Reserved, GrantsValid;
    var p := ParseGrant(b).payload;
    ListWrites(b, CHUNK_SIZE);
    var es := ListEntries(b, CHUNK_SIZE);
    forall i | 0 <= i < |es| ensures ChunkBytes(p.chunks[i]) == es[i] { ChunkExact(es[i], p.chunks[i]); }
    assert ChunkEntries(p.chunks) == es;
  }

  lemma IdsWrite(b: Bytes, releasing: bool)
    requires ParseIds(b, releasing).Got?
    ensures var p := ParseIds(b, releasing).payload;
      (if releasing then p.Release? else p.Evict?) && PayloadValid(p) && PayloadBytes(p) == b
  {
    hide ListEntries, Put32, Get32, ListBytes, IdsDistinct;
    var p := ParseIds(b, releasing).payload;
    ListWrites(b, CHUNK_ID_SIZE);
    var es := ListEntries(b, CHUNK_ID_SIZE);
    var ids := IdsFrom(es);
    forall i | 0 <= i < |es| ensures Put32(ids[i]) == es[i] { IdExact(es[i], ids[i]); }
    assert IdEntries(ids) == es;
  }

  lemma ActivityWrites(b: Bytes)
    requires ParseActivity(b).Got?
    ensures var p := ParseActivity(b).payload; p.Activity? && PayloadValid(p) && PayloadBytes(p) == b
  {
    hide ListEntries, ActivityBytes, ActivityFrom, ListBytes, ActivityDistinct;
    var p := ParseActivity(b).payload;
    ListWrites(b, ACTIVITY_SIZE);
    var es := ListEntries(b, ACTIVITY_SIZE);
    forall i | 0 <= i < |es| ensures ActivityBytes(p.entries[i]) == es[i] { ActivityExact(es[i], p.entries[i]); }
    assert ActivityEntries(p.entries) == es;
  }

  lemma PayloadWrites(kind: U16, b: Bytes)
    requires ParsePayload(kind, b).Got?
    ensures var p := ParsePayload(kind, b).payload;
      && TypeOf(p) == kind && PayloadValid(p) && (PayloadBytes(p) == b <==> !ZeroInIdentifiers(kind, b))
      && |PayloadBytes(p)| <= |b|
  {
    hide Put16, Get16, Put32, Get32, Reserved, ParseHello, ParseGrant, ParseIds, ParseActivity, HelloValid, GrantsValid,
      IdsDistinct, ActivityDistinct, ListBytes;
    match kind
    case 1 => HelloWrites(b);
    case 2 => ChallengeExact(b, b[..32], Get16(b, 32));
    case 4 => AcceptExact(b, Get16(b, 0));
    case 6 => StatusExact(b, Get32(b, 0), Get32(b, 4), Get32(b, 8), Get32(b, 12));
    case 7 => RequestExact(b, Get32(b, 0), Get32(b, 4), b[8]);
    case 8 => GrantWrites(b);
    case 9 => IdsWrite(b, false);
    case 10 => ActivityWrites(b);
    case 11 => IdsWrite(b, true);
    case 13 => ErrorExact(b, Get16(b, 0), Get16(b, 2), b[4]);
    case _ =>
  }

  // --------------------------------------------------------------------- frames

  lemma HeaderExact(f: Bytes, h: Header, kind: U16, size: U32)
    requires |f| >= HEADER_SIZE
    ensures f[..HEADER_SIZE] == HeaderBytes(h, kind, size) <==>
      Get32(f, 0) == MAGIC && HeaderFrom(f) == h && Get16(f, 8) == kind && Get32(f, 12) == size
  {
    hide Put16, Get16, Put32, Get32, Put64, Get64;
    PutGet32(f, 0, MAGIC);
    PutGet16(f, 4, h.major);
    PutGet16(f, 6, h.minor);
    PutGet16(f, 8, kind);
    PutGet16(f, 10, h.flags);
    PutGet32(f, 12, size);
    PutGet64(f, 16, h.requestId);
    PutGet64(f, 24, h.sessionId);
    PutGet64(f, 32, h.capabilities);
    PutGet64(f, 40, h.required);
    HeaderSlices(h, kind, size);
    var g := f[..HEADER_SIZE];
    assert g[0..4] == f[0..4] && g[4..6] == f[4..6] && g[6..8] == f[6..8] && g[8..10] == f[8..10] && g[10..12] == f[10..12];
    assert g[12..16] == f[12..16] && g[16..24] == f[16..24] && g[24..32] == f[24..32] && g[32..40] == f[32..40];
    assert g[40..48] == f[40..48];
    HeaderJoins(g);
    HeaderJoins(HeaderBytes(h, kind, size));
  }

  lemma HeaderSlices(h: Header, kind: U16, size: U32)
    ensures var b := HeaderBytes(h, kind, size);
      && b[0..4] == Put32(MAGIC) && b[4..6] == Put16(h.major) && b[6..8] == Put16(h.minor) && b[8..10] == Put16(kind)
      && b[10..12] == Put16(h.flags) && b[12..16] == Put32(size) && b[16..24] == Put64(h.requestId)
      && b[24..32] == Put64(h.sessionId) && b[32..40] == Put64(h.capabilities) && b[40..48] == Put64(h.required)
  {
    hide Put16, Put32, Put64;
  }

  lemma HeaderJoins(b: Bytes)
    requires |b| == HEADER_SIZE
    ensures b == b[0..4] + b[4..6] + b[6..8] + b[8..10] + b[10..12] + b[12..16] + b[16..24] + b[24..32] + b[32..40] + b[40..48]
  {}

  // A valid payload always fits a frame, so the oversize answer of the encoder is never given.
  lemma PayloadFits(p: Payload)
    requires PayloadValid(p)
    ensures |PayloadBytes(p)| <= LIST_HEADER_SIZE + MAX_CHUNKS_PER_FRAME * CHUNK_SIZE <= MAX_FRAME_SIZE - HEADER_SIZE
  {
    hide Put16, Put32, Flatten, ChunkBytes, ActivityBytes, GrantsValid, IdsDistinct, ActivityDistinct, IdentifierByte;
    match p
    case ChunkGrant(chunks) => ListSize(|chunks|, ChunkEntries(chunks), CHUNK_SIZE);
    case Evict(ids) => ListSize(|ids|, IdEntries(ids), CHUNK_ID_SIZE);
    case Activity(entries) => ListSize(|entries|, ActivityEntries(entries), ACTIVITY_SIZE);
    case Release(ids) => ListSize(|ids|, IdEntries(ids), CHUNK_ID_SIZE);
    case _ =>
  }

  lemma ListSize(n: U16, entries: seq<Bytes>, size: nat)
    requires EntrySize(size) && n == |entries| && CountValid(n) && Uniform(entries, size)
    ensures |ListBytes(n, entries)| <= LIST_HEADER_SIZE + MAX_CHUNKS_PER_FRAME * CHUNK_SIZE
  {
    hide Put16, Flatten;
    FlattenSize(entries, size);
    CountFits(n, size);
  }

  lemma NeverOversized(m: Message, capacity: nat)
    ensures Encode(m, capacity) != EncodeFault(Oversized)
  {
    hide HeaderBytes, PayloadBytes;
    if PayloadValid(m.payload) { PayloadFits(m.payload); }
  }

  // Every message the encoder accepts decodes to the same message.
  lemma EncodeThenDecode(m: Message, capacity: nat)
    requires Encode(m, capacity).Frame?
    ensures Decode(Encode(m, capacity).bytes) == Heard(m)
  {
    hide HeaderBytes, PayloadBytes, ParsePayload, HeaderFault, PayloadValid, Get16, Get32, HeaderFrom;
    var f := Encode(m, capacity).bytes;
    var kind, payload := TypeOf(m.payload), PayloadBytes(m.payload);
    PayloadReads(m.payload);
    PayloadFits(m.payload);
    assert f[..HEADER_SIZE] == HeaderBytes(m.header, kind, |payload|) && f[HEADER_SIZE..] == payload;
    HeaderExact(f, m.header, kind, |payload|);
  }

  // Every frame the decoder accepts encodes back into any buffer of its size, and to the same bytes exactly when no HELLO
  // identifier holds a zero byte. A smaller buffer never gives the frame back.
  lemma DecodeThenEncode(f: Bytes, capacity: nat)
    requires Decode(f).Heard?
    ensures var m := Decode(f).message;
      && (capacity >= |f| ==> Encode(m, capacity).Frame?)
      && (Encode(m, capacity) == Frame(f) <==> capacity >= |f| && !ZeroInIdentifiers(TypeOf(m.payload), f[HEADER_SIZE..]))
  {
    hide HeaderBytes, PayloadBytes, ParsePayload, HeaderFault, PayloadValid, Get16, Get32, HeaderFrom, ZeroInIdentifiers;
    var m := Decode(f).message;
    var kind, payload := Get16(f, 8), f[HEADER_SIZE..];
    PayloadWrites(kind, payload);
    PayloadFits(m.payload);
    HeaderExact(f, m.header, kind, Get32(f, 12));
    assert f == f[..HEADER_SIZE] + payload;
    if Encode(m, capacity).Frame? {
      var g := Encode(m, capacity).bytes;
      assert g[HEADER_SIZE..] == PayloadBytes(m.payload);
    }
  }

  // Such a frame exists: the identifier "a", a zero and "b" is read as "a".
  function SplitIdentifierFrame(): Bytes {
    HeaderBytes(Header(MAJOR, MINOR_CURRENT, 0, 1, 0, 0, 0), 1, HELLO_FIXED_SIZE + 4)
    + [3, 1, MODE_BACKED, POOL_OPPORTUNISTIC] + Put32(2000) + seq(BLOCK_SIZE, _ => 0) + [97, 0, 98] + [107]
  }

  lemma ZeroIsLost()
    ensures var f := SplitIdentifierFrame();
      && Decode(f).Heard? && Decode(f).message.payload.Hello? && Decode(f).message.payload.consumer == [97]
      && Encode(Decode(f).message, MAX_FRAME_SIZE) != Frame(f)
  {
    hide SplitIdentifierFrame, Decode, Encode, ZeroInIdentifiers;
    SplitIdentifierHeard();
    DecodeThenEncode(SplitIdentifierFrame(), MAX_FRAME_SIZE);
  }

  lemma SplitIdentifierHeard()
    ensures var f := SplitIdentifierFrame();
      && Decode(f).Heard? && Decode(f).message.payload.Hello? && Decode(f).message.payload.consumer == [97]
      && ZeroInIdentifiers(1, f[HEADER_SIZE..])
  {
    hide HeaderBytes, HeaderFrom, Get32, Get16, Put32;
    var f := SplitIdentifierFrame();
    var h := Header(MAJOR, MINOR_CURRENT, 0, 1, 0, 0, 0);
    var b := [3, 1, MODE_BACKED, POOL_OPPORTUNISTIC] + Put32(2000) + seq(BLOCK_SIZE, _ => 0) + [97, 0, 98] + [107];
    assert f == HeaderBytes(h, 1, 44) + b;
    assert f[..HEADER_SIZE] == HeaderBytes(h, 1, 44) && f[HEADER_SIZE..] == b;
    HeaderExact(f, h, 1, 44);
    assert b[4..8] == Put32(2000);
    PutGet32(b, 4, 2000);
    assert b[40..43] == [97, 0, 98] && b[43..] == [107] && b[41] == 0;
    assert b[40..][1] == 0;
    assert TextOf([97, 0, 98]) == [97] by { assert [97, 0, 98][1..] == [0, 98]; }
    assert TextOf([107]) == [107];
  }
}
