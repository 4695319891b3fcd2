/**
 The codec as it fills and walks buffers: integers are stored byte by byte,
 lists are written and read entry by entry, and identifiers are measured up to
 their terminating zero. Each routine is proved against its function in Wire.
 */
module WireCodec {
  import opened Options
  import opened WireBytes
  import opened Wire

  // ------------------------------------------------------------------- writing

  // `bytes` were written at a position and nothing else changed.
  ghost predicate Written(before: Bytes, after: Bytes, at: nat, bytes: Bytes) {
    at + |bytes| <= |before| && after == before[..at] + bytes + before[at + |bytes|..]
  }

  lemma WrittenOn(before: Bytes, middle: Bytes, after: Bytes, at: nat, first: Bytes, second: Bytes)
    requires Written(before, middle, at, first) && Written(middle, after, at + |first|, second)
    ensures Written(before, after, at, first + second)
  {
    assert middle[..at + |first|] == before[..at] + first;
    assert middle[at + |first| + |second|..] == before[at + |first| + |second|..];
  }

  method WriteBytes(out: array<U8>, at: nat, bytes: Bytes)
    requires at + |bytes| <= out.Length
    modifies out
    ensures Written(old(out[..]), out[..], at, bytes)
  {
    ghost var before := out[..];
    for k := 0 to |bytes|
      invariant forall i :: 0 <= i < out.Length ==> out[i] == if at <= i < at + k then bytes[i - at] else before[i]
    {
      out[at + k] := bytes[k];
    }
    assert out[..] == before[..at] + bytes + before[at + |bytes|..];
  }

  method WriteU16(out: array<U8>, at: nat, v: U16)
    requires at + 2 <= out.Length
    modifies out
    ensures Written(old(out[..]), out[..], at, Put16(v))
  {
    ghost var before := out[..];
    out[at] := v / 0x100;
    out[at + 1] := v % 0x100;
    assert out[..] == before[..at] + Put16(v) + before[at + 2..];
  }

  method WriteU32(out: array<U8>, at: nat, v: U32)
    requires at + 4 <= out.Length
    modifies out
    ensures Written(old(out[..]), out[..], at, Put32(v))
  {
    hide Put16;
    ghost var before := out[..];
    WriteU16(out, at, v / 0x1_0000);
    ghost var middle := out[..];
    WriteU16(out, at + 2, v % 0x1_0000);
    WrittenOn(before, middle, out[..], at, Put16(v / 0x1_0000), Put16(v % 0x1_0000));
  }

  method WriteU64(out: array<U8>, at: nat, v: U64)
    requires at + 8 <= out.Length
    modifies out
    ensures Written(old(out[..]), out[..], at, Put64(v))
  {
    hide Put32;
    ghost var before := out[..];
    WriteU32(out, at, v / 0x1_0000_0000);
    ghost var middle := out[..];
    WriteU32(out, at + 4, v % 0x1_0000_0000);
    WrittenOn(before, middle, out[..], at, Put32(v / 0x1_0000_0000), Put32(v % 0x1_0000_0000));
  }

  // One more field behind those already written.
  method AddBytes(out: array<U8>, pos: nat, bytes: Bytes, ghost before: Bytes, ghost at: nat, ghost done: Bytes)
    requires Written(before, out[..], at, done) && pos == at + |done| && pos + |bytes| <= out.Length
    modifies out
    ensures Written(before, out[..], at, done + bytes)
  {
    ghost var middle := out[..];
    WriteBytes(out, pos, bytes);
    WrittenOn(before, middle, out[..], at, done, bytes);
  }

  method AddU16(out: array<U8>, pos: nat, v: U16, ghost before: Bytes, ghost at: nat, ghost done: Bytes)
    requires Written(before, out[..], at, done) && pos == at + |done| && pos + 2 <= out.Length
    modifies out
    ensures Written(before, out[..], at, done + Put16(v))
  {
    hide Put16;
    ghost var middle := out[..];
    WriteU16(out, pos, v);
    WrittenOn(before, middle, out[..], at, done, Put16(v));
  }

  method AddU32(out: array<U8>, pos: nat, v: U32, ghost before: Bytes, ghost at: nat, ghost done: Bytes)
    requires Written(before, out[..], at, done) && pos == at + |done| && pos + 4 <= out.Length
    modifies out
    ensures Written(before, out[..], at, done + Put32(v))
  {
    hide Put32;
    ghost var middle := out[..];
    WriteU32(out, pos, v);
    WrittenOn(before, middle, out[..], at, done, Put32(v));
  }

  method AddU64(out: array<U8>, pos: nat, v: U64, ghost before: Bytes, ghost at: nat, ghost done: Bytes)
    requires Written(before, out[..], at, done) && pos == at + |done| && pos + 8 <= out.Length
    modifies out
    ensures Written(before, out[..], at, done + Put64(v))
  {
    hide Put64;
    ghost var middle := out[..];
    WriteU64(out, pos, v);
    WrittenOn(before, middle, out[..], at, done, Put64(v));
  }

  method WriteHeader(out: array<U8>, h: Header, kind: U16, size: U32)
    requires HEADER_SIZE <= out.Length
    modifies out
    ensures Written(old(out[..]), out[..], 0, HeaderBytes(h, kind, size))
  {
    hide Put16, Put32, Put64, Written;
    ghost var before, done := out[..], Put32(MAGIC);
    WriteU32(out, 0, MAGIC);
    AddU16(out, 4, h.major, before, 0, done);
    done := done + Put16(h.major);
    AddU16(out, 6, h.minor, before, 0, done);
    done := done + Put16(h.minor);
    AddU16(out, 8, kind, before, 0, done);
    done := done + Put16(kind);
    AddU16(out, 10, h.flags, before, 0, done);
    done := done + Put16(h.flags);
    AddU32(out, 12, size, before, 0, done);
    done := done + Put32(size);
    AddU64(out, 16, h.requestId, before, 0, done);
    done := done + Put64(h.requestId);
    AddU64(out, 24, h.sessionId, before, 0, done);
    done := done + Put64(h.sessionId);
    AddU64(out, 32, h.capabilities, before, 0, done);
    done := done + Put64(h.capabilities);
    AddU64(out, 40, h.required, before, 0, done);
  }

  // -------------------------------------------------------------------- lists

  // The next entry of a list behind those already written.
  lemma EntryWritten(before: Bytes, middle: Bytes, after: Bytes, at: nat, entries: seq<Bytes>, i: nat, size: nat)
    requires Uniform(entries, size) && i < |entries| && Written(before, middle, at, Flatten(entries[..i]))
    requires Written(middle, after, at + i * size, entries[i])
    ensures Written(before, after, at, Flatten(entries[..i + 1]))
  {
    hide Written;
    FlattenSize(entries[..i], size);
    WrittenOn(before, middle, after, at, Flatten(entries[..i]), entries[i]);
    assert entries[..i + 1][..i] == entries[..i];
  }

  lemma NothingWritten(b: Bytes, at: nat, entries: seq<Bytes>)
    requires at <= |b|
    ensures Written(b, b, at, Flatten(entries[..0])) && entries[..|entries|] == entries
  {
    assert b == b[..at] + [] + b[at..];
  }

  method WriteChunk(out: array<U8>, at: nat, c: ChunkEntry)
    requires at + CHUNK_SIZE <= out.Length
    modifies out
    ensures Written(old(out[..]), out[..], at, ChunkBytes(c))
  {
    hide Put32, Put64, Written;
    ghost var before, done := out[..], Put32(c.logical);
    WriteU32(out, at, c.logical);
    AddU32(out, at + 4, c.provider, before, at, done);
    done := done + Put32(c.provider);
    AddU64(out, at + 8, c.address, before, at, done);
    done := done + Put64(c.address);
    AddU32(out, at + 16, c.key, before, at, done);
    done := done + Put32(c.key);
    AddBytes(out, at + 20, [c.pool, 0, 0, 0], before, at, done);
  }

  method WriteActivityEntry(out: array<U8>, at: nat, e: ActivityEntry)
    requires at + ACTIVITY_SIZE <= out.Length
    modifies out
    ensures Written(old(out[..]), out[..], at, ActivityBytes(e))
  {
    hide Put32, Put64, Written;
    ghost var before := out[..];
    WriteU32(out, at, e.provider);
    AddU64(out, at + 4, e.activity, before, at, Put32(e.provider));
  }

  method WriteChunks(out: array<U8>, at: nat, cs: seq<ChunkEntry>)
    requires at + |cs| * CHUNK_SIZE <= out.Length
    modifies out
    ensures Written(old(out[..]), out[..], at, Flatten(ChunkEntries(cs)))
  {
    hide ChunkBytes, Flatten, Written;
    ghost var before, entries := out[..], ChunkEntries(cs);
    NothingWritten(before, at, entries);
    for i := 0 to |cs|
      invariant Written(before, out[..], at, Flatten(entries[..i]))
    {
      ghost var middle := out[..];
      WriteChunk(out, at + i * CHUNK_SIZE, cs[i]);
      EntryWritten(before, middle, out[..], at, entries, i, CHUNK_SIZE);
    }
  }

  method WriteIds(out: array<U8>, at: nat, ids: seq<U32>)
    requires at + |ids| * CHUNK_ID_SIZE <= out.Length
    modifies out
    ensures Written(old(out[..]), out[..], at, Flatten(IdEntries(ids)))
  {
    hide Put32, Flatten, Written;
    ghost var before, entries := out[..], IdEntries(ids);
    NothingWritten(before, at, entries);
    for i := 0 to |ids|
      invariant Written(before, out[..], at, Flatten(entries[..i]))
    {
      ghost var middle := out[..];
      WriteU32(out, at + i * CHUNK_ID_SIZE, ids[i]);
      EntryWritten(before, middle, out[..], at, entries, i, CHUNK_ID_SIZE);
    }
  }

  method WriteActivities(out: array<U8>, at: nat, es: seq<ActivityEntry>)
    requires at + |es| * ACTIVITY_SIZE <= out.Length
    modifies out
    ensures Written(old(out[..]), out[..], at, Flatten(ActivityEntries(es)))
  {
    hide ActivityBytes, Flatten, Written;
    ghost var before, entries := out[..], ActivityEntries(es);
    NothingWritten(before, at, entries);
    for i := 0 to |es|
      invariant Written(before, out[..], at, Flatten(entries[..i]))
    {
      ghost var middle := out[..];
      WriteActivityEntry(out, at + i * ACTIVITY_SIZE, es[i]);
      EntryWritten(before, middle, out[..], at, entries, i, ACTIVITY_SIZE);
    }
  }

  // A list's length and its reserved bytes.
  method WriteCount(out: array<U8>, at: nat, n: U16)
    requires at + LIST_HEADER_SIZE <= out.Length
    modifies out
    ensures Written(old(out[..]), out[..], at, Put16(n) + Put16(0))
  {
    hide Put16, Written;
    ghost var before := out[..];
    WriteU16(out, at, n);
    AddU16(out, at + 2, 0, before, at, Put16(n));
  }

  method WriteList(out: array<U8>, at: nat, p: Payload)
    requires p.ChunkGrant? || p.Evict? || p.Release? || p.Activity?
    requires PayloadValid(p) && at + |PayloadBytes(p)| <= out.Length
    modifies out
    ensures Written(old(out[..]), out[..], at, PayloadBytes(p))
  {
    hide Put16, Flatten, Written, ChunkBytes, ActivityBytes, GrantsValid, IdsDistinct, ActivityDistinct;
    ghost var before := out[..];
    if p.ChunkGrant? {
      ListRoom(|p.chunks|, ChunkEntries(p.chunks), CHUNK_SIZE);
      WriteCount(out, at, |p.chunks|);
      ghost var middle := out[..];
      WriteChunks(out, at + LIST_HEADER_SIZE, p.chunks);
      WrittenOn(before, middle, out[..], at, Put16(|p.chunks|) + Put16(0), Flatten(ChunkEntries(p.chunks)));
    } else if p.Activity? {
      ListRoom(|p.entries|, ActivityEntries(p.entries), ACTIVITY_SIZE);
      WriteCount(out, at, |p.entries|);
      ghost var middle := out[..];
      WriteActivities(out, at + LIST_HEADER_SIZE, p.entries);
      WrittenOn(before, middle, out[..], at, Put16(|p.entries|) + Put16(0), Flatten(ActivityEntries(p.entries)));
    } else {
      ListRoom(|p.ids|, IdEntries(p.ids), CHUNK_ID_SIZE);
      WriteCount(out, at, |p.ids|);
      ghost var middle := out[..];
      WriteIds(out, at + LIST_HEADER_SIZE, p.ids);
      WrittenOn(before, middle, out[..], at, Put16(|p.ids|) + Put16(0), Flatten(IdEntries(p.ids)));
    }
  }

  lemma ListRoom(n: U16, entries: seq<Bytes>, size: nat)
    requires Uniform(entries, size) && n == |entries|
    ensures |ListBytes(n, entries)| == LIST_HEADER_SIZE + n * size
  {
    FlattenSize(entries, size);
  }

  // ----------------------------------------------------------------- payloads

  method WriteHello(out: array<U8>, at: nat, p: Payload)
    requires p.Hello? && PayloadValid(p) && at + |PayloadBytes(p)| <= out.Length
    modifies out
    ensures Written(old(out[..]), out[..], at, PayloadBytes(p))
  {
    hide Put32, Written;
    var lengths := [|p.consumer| as U8, |p.keyId| as U8, p.mode, p.pool];
    ghost var before, done := out[..], lengths;
    WriteBytes(out, at, lengths);
    AddU32(out, at + 4, p.deadline, before, at, done);
    done := done + Put32(p.deadline);
    AddBytes(out, at + 8, p.nonce, before, at, done);
    done := done + p.nonce;
    AddBytes(out, at + HELLO_FIXED_SIZE, p.consumer, before, at, done);
    done := done + p.consumer;
    AddBytes(out, at + HELLO_FIXED_SIZE + |p.consumer|, p.keyId, before, at, done);
  }

  method WriteStatus(out: array<U8>, at: nat, p: Payload)
    requires p.Status? && PayloadValid(p) && at + |PayloadBytes(p)| <= out.Length
    modifies out
    ensures Written(old(out[..]), out[..], at, PayloadBytes(p))
  {
    hide Put32, Written;
    ghost var before, done := out[..], Put32(p.opportunistic);
    WriteU32(out, at, p.opportunistic);
    AddU32(out, at + 4, p.committed, before, at, done);
    done := done + Put32(p.committed);
    AddU32(out, at + 8, p.deadline, before, at, done);
    done := done + Put32(p.deadline);
    AddU32(out, at + 12, p.flags, before, at, done);
  }

  method WriteChunkRequest(out: array<U8>, at: nat, p: Payload)
    requires p.ChunkRequest? && PayloadValid(p) && at + |PayloadBytes(p)| <= out.Length
    modifies out
    ensures Written(old(out[..]), out[..], at, PayloadBytes(p))
  {
    hide Put32, Written;
    ghost var before, done := out[..], Put32(p.count);
    WriteU32(out, at, p.count);
    AddU32(out, at + 4, p.start, before, at, done);
    done := done + Put32(p.start);
    AddBytes(out, at + 8, [p.pool, 0, 0, 0], before, at, done);
  }

  method WriteError(out: array<U8>, at: nat, p: Payload)
    requires p.Error? && PayloadValid(p) && at + |PayloadBytes(p)| <= out.Length
    modifies out
    ensures Written(old(out[..]), out[..], at, PayloadBytes(p))
  {
    hide Put16, Written;
    ghost var before, done := out[..], Put16(p.code);
    WriteU16(out, at, p.code);
    AddU16(out, at + 2, p.offending, before, at, done);
    done := done + Put16(p.offending);
    AddBytes(out, at + 4, [p.retryable, 0, 0, 0], before, at, done);
  }

  method WriteMinor(out: array<U8>, at: nat, p: Payload)
    requires (p.Challenge? || p.Accept?) && PayloadValid(p) && at + |PayloadBytes(p)| <= out.Length
    modifies out
    ensures Written(old(out[..]), out[..], at, PayloadBytes(p))
  {
    hide Put16, Written;
    ghost var before := out[..];
    if p.Challenge? {
      WriteBytes(out, at, p.nonce);
      AddU16(out, at + BLOCK_SIZE, p.minor, before, at, p.nonce);
      AddU16(out, at + BLOCK_SIZE + 2, 0, before, at, p.nonce + Put16(p.minor));
    } else {
      WriteU16(out, at, p.minor);
      AddU16(out, at + 2, 0, before, at, Put16(p.minor));
    }
  }

  method WritePayload(out: array<U8>, at: nat, p: Payload)
    requires PayloadValid(p) && at + |PayloadBytes(p)| <= out.Length
    modifies out
    ensures Written(old(out[..]), out[..], at, PayloadBytes(p))
  {
    hide Written;
    match p
    case Hello(_, _, _, _, _, _) => WriteHello(out, at, p);
    case Challenge(_, _) => WriteMinor(out, at, p);
    case Auth(tag) => WriteBytes(out, at, tag);
    case Accept(_) => WriteMinor(out, at, p);
    case Status(_, _, _, _) => WriteStatus(out, at, p);
    case ChunkRequest(_, _, _) => WriteChunkRequest(out, at, p);
    case ChunkGrant(_) => WriteList(out, at, p);
    case Evict(_) => WriteList(out, at, p);
    case Activity(_) => WriteList(out, at, p);
    case Release(_) => WriteList(out, at, p);
    case Error(_, _, _) => WriteError(out, at, p);
    case StatusRequest => WriteBytes(out, at, []);
    case Goodbye => WriteBytes(out, at, []);
  }

  // ----------------------------------------------------------------- validating

  method GrantsAreValid(cs: seq<ChunkEntry>) returns (ok: bool)
    ensures ok == GrantsValid(cs)
  {
    for i := 0 to |cs|
      invariant forall k :: 0 <= k < i ==> GrantEntryValid(cs[k])
      invariant forall j, k :: 0 <= j < k < i ==> cs[j].logical != cs[k].logical && cs[j].provider != cs[k].provider
    {
      if !GrantEntryValid(cs[i]) { return false; }
      for j := 0 to i
        invariant forall k :: 0 <= k < j ==> cs[k].logical != cs[i].logical && cs[k].provider != cs[i].provider
      {
        if cs[j].logical == cs[i].logical || cs[j].provider == cs[i].provider { return false; }
      }
    }
    return true;
  }

  method IdsAreDistinct(ids: seq<U32>) returns (ok: bool)
    ensures ok == IdsDistinct(ids)
  {
    for i := 0 to |ids|
      invariant forall j, k :: 0 <= j < k < i ==> ids[j] != ids[k]
    {
      for j := 0 to i
        invariant forall k :: 0 <= k < j ==> ids[k] != ids[i]
      {
        if ids[j] == ids[i] { return false; }
      }
    }
    return true;
  }

  method IdentifierIsValid(t: Text, maximum: nat) returns (ok: bool)
    ensures ok == IdentifierValid(t, maximum)
  {
    if |t| > maximum || |t| == 0 { return false; }
    for index := 0 to |t|
      invariant forall i :: 0 <= i < index ==> IdentifierByte(t[i])
    {
      var c := t[index];
      if !(97 <= c <= 122 || 65 <= c <= 90 || 48 <= c <= 57 || c == 46 || c == 95 || c == 45) { return false; }
    }
    return true;
  }

  method HelloIsValid(p: Payload) returns (ok: bool)
    requires p.Hello?
    ensures ok == HelloValid(p)
  {
    hide IdentifierValid;
    var consumer := IdentifierIsValid(p.consumer, CONSUMER_ID_MAX);
    var keyId := IdentifierIsValid(p.keyId, KEY_ID_MAX);
    if !consumer || !keyId { return false; }
    if (p.mode != MODE_BACKED && p.mode != MODE_REMOTE_ONLY) || !PoolValid(p.pool) || !DeadlineValid(p.deadline) { return false; }
    if (p.mode == MODE_BACKED && p.pool != POOL_OPPORTUNISTIC) || (p.mode == MODE_REMOTE_ONLY && p.pool != POOL_COMMITTED) {
      return false;
    }
    return true;
  }

  // Whether a payload may be sent, and how many bytes it takes.
  method PayloadSize(p: Payload) returns (ok: bool, size: nat)
    ensures ok == PayloadValid(p) && (ok ==> size == |PayloadBytes(p)|)
  {
    hide GrantsValid, IdsDistinct, ActivityDistinct, ListBytes, Put16, Put32;
    match p
    case Hello(consumer, keyId, _, _, _, _) =>
      ok := HelloIsValid(p);
      size := HELLO_FIXED_SIZE + |consumer| + |keyId|;
    case Challenge(_, minor) => ok, size := MinorValid(minor), BLOCK_SIZE + 4;
    case Auth(_) => ok, size := true, BLOCK_SIZE;
    case Accept(minor) => ok, size := MinorValid(minor), 4;
    case StatusRequest => ok, size := true, 0;
    case Goodbye => ok, size := true, 0;
    case Status(_, _, deadline, _) => ok, size := DeadlineValid(deadline), 16;
    case ChunkRequest(count, start, pool) =>
      ok := !(count == 0 || count > MAX_CHUNKS_PER_FRAME || count - 1 > U32_MAX - start || !PoolValid(pool));
      size := 12;
    case ChunkGrant(chunks) =>
      ok := GrantsAreValid(chunks);
      ok, size := ok && CountValid(|chunks|), LIST_HEADER_SIZE + CHUNK_SIZE * |chunks|;
      if ok { ListRoom(|chunks|, ChunkEntries(chunks), CHUNK_SIZE); }
    case Evict(ids) =>
      ok := IdsAreDistinct(ids);
      ok, size := ok && CountValid(|ids|), LIST_HEADER_SIZE + CHUNK_ID_SIZE * |ids|;
      if ok { ListRoom(|ids|, IdEntries(ids), CHUNK_ID_SIZE); }
    case Release(ids) =>
      ok := IdsAreDistinct(ids);
      ok, size := ok && CountValid(|ids|), LIST_HEADER_SIZE + CHUNK_ID_SIZE * |ids|;
      if ok { ListRoom(|ids|, IdEntries(ids), CHUNK_ID_SIZE); }
    case Activity(entries) =>
      ok := IdsAreDistinct(seq(|entries|, i requires 0 <= i < |entries| => entries[i].provider));
      ProvidersDistinct(entries);
      ok, size := ok && CountValid(|entries|), LIST_HEADER_SIZE + ACTIVITY_SIZE * |entries|;
      if ok { ListRoom(|entries|, ActivityEntries(entries), ACTIVITY_SIZE); }
    case Error(code, _, retryable) => ok, size := !(code < 1 || code > 9 || retryable > 1), 8;
    case Foreign(_) => ok, size := false, 0;
  }

  lemma ProvidersDistinct(es: seq<ActivityEntry>)
    ensures IdsDistinct(seq(|es|, i requires 0 <= i < |es| => es[i].provider)) == ActivityDistinct(es)
  {
    var ids := seq(|es|, i requires 0 <= i < |es| => es[i].provider);
    assert forall i :: 0 <= i < |es| ==> ids[i] == es[i].provider;
  }

  // Writes the frame of a message, or nothing when it cannot be encoded or does not fit.
  method EncodeFrame(m: Message, out: array<U8>) returns (fault: Option<Fault>, size: nat)
    modifies out
    ensures match Encode(m, out.Length)
      case Frame(bytes) => fault.None? && size == |bytes| && Written(old(out[..]), out[..], 0, bytes)
      case EncodeFault(f) => fault == Some(f) && size == 0 && out[..] == old(out[..])
  {
    hide PayloadValid, HeaderBytes, Written;
    var kind := TypeOf(m.payload);
    fault, size := HeaderFault(m.header, kind), 0;
    if fault.Some? { return; }
    var ok, payloadSize := PayloadSize(m.payload);
    if !ok { return Some(InvalidPayload), 0; }
    if payloadSize > MAX_FRAME_SIZE - HEADER_SIZE { return Some(Oversized), 0; }
    if out.Length < HEADER_SIZE + payloadSize { return Some(BufferTooSmall), 0; }
    ghost var before := out[..];
    WriteHeader(out, m.header, kind, payloadSize);
    ghost var middle := out[..];
    WritePayload(out, HEADER_SIZE, m.payload);
    WrittenOn(before, middle, out[..], 0, HeaderBytes(m.header, kind, payloadSize), PayloadBytes(m.payload));
    size := HEADER_SIZE + payloadSize;
  }

  // ------------------------------------------------------------------- reading

  method ReadText(b: Bytes) returns (t: Text)
    ensures t == TextOf(b)
  {
    var length := 0;
    while length < |b| && b[length] != 0
      invariant length <= |b| && forall i :: 0 <= i < length ==> b[i] != 0
    {
      length := length + 1;
    }
    t := b[..length];
    TextStops(b, length);
  }

  lemma {:induction false} TextStops(b: Bytes, n: nat)
    requires n <= |b| && (forall i :: 0 <= i < n ==> b[i] != 0) && (n < |b| ==> b[n] == 0)
    ensures TextOf(b) == b[..n]
  {
    if n > 0 {
      TextStops(b[1..], n - 1);
      assert b[..n] == [b[0]] + b[1..][..n - 1];
    }
  }

  method IsReserved(b: Bytes, i: nat, n: nat) returns (zero: bool)
    requires i + n <= |b|
    ensures zero == Reserved(b, i, n)
  {
    for k := i to i + n
      invariant forall j :: i <= j < k ==> b[j] == 0
    {
      if b[k] != 0 { return false; }
    }
    return true;
  }

  method ReadHello(b: Bytes) returns (r: Parsed)
    ensures r == ParseHello(b)
  {
    hide HelloValid, TextOf, Get32;
    if |b| < HELLO_FIXED_SIZE { return Bad(InvalidPayload); }
    var c, k := b[0] as int, b[1] as int;
    if c == 0 || c > CONSUMER_ID_MAX || k == 0 || k > KEY_ID_MAX || c + k != |b| - HELLO_FIXED_SIZE {
      return Bad(InvalidPayload);
    }
    var consumer := ReadText(b[HELLO_FIXED_SIZE..HELLO_FIXED_SIZE + c]);
    var keyId := ReadText(b[HELLO_FIXED_SIZE + c..]);
    var hello := Hello(consumer, keyId, b[8..HELLO_FIXED_SIZE], b[2], b[3], Get32(b, 4));
    var ok := HelloIsValid(hello);
    return if ok then Got(hello) else Bad(InvalidPayload);
  }

  // Whether the length a list claims agrees with the bytes that are there.
  method ListHead(b: Bytes, entry: nat) returns (fault: Option<Fault>)
    requires entry > 0
    ensures fault == ListHeadFault(b, entry)
  {
    hide Get16, Reserved;
    if |b| < LIST_HEADER_SIZE { return Some(InvalidPayload); }
    var n := Get16(b, 0);
    var zero := IsReserved(b, 2, 2);
    if !zero || n == 0 { return Some(InvalidPayload); }
    if n > (MAX_FRAME_SIZE - LIST_HEADER_SIZE) / entry { return Some(IntegerOverflow); }
    if n > MAX_CHUNKS_PER_FRAME || |b| != LIST_HEADER_SIZE + n * entry { return Some(InvalidPayload); }
    return None;
  }

  method ReadGrant(b: Bytes) returns (r: Parsed)
    ensures r == ParseGrant(b)
  {
    hide ListEntries, Reserved, ChunkFrom, GrantEntryValid;
    var fault := ListHead(b, CHUNK_SIZE);
    if fault.Some? { return Bad(fault.value); }
    var es := ListEntries(b, CHUNK_SIZE);
    ghost var all := seq(|es|, i requires 0 <= i < |es| => ChunkFrom(es[i]));
    var cs: seq<ChunkEntry> := [];
    for i := 0 to |es|
      invariant cs == all[..i] && GrantsValid(cs)
      invariant forall k :: 0 <= k < i ==> Reserved(es[k], 21, 3)
    {
      var c := ChunkFrom(es[i]);
      assert all[i] == c;
      var zero := IsReserved(es[i], 21, 3);
      if !zero || !GrantEntryValid(c) { return Bad(InvalidPayload); }
      for j := 0 to i
        invariant forall k :: 0 <= k < j ==> cs[k].logical != c.logical && cs[k].provider != c.provider
      {
        if cs[j].logical == c.logical || cs[j].provider == c.provider {
          assert all[j] == cs[j];
          return Bad(InvalidPayload);
        }
      }
      cs := cs + [c];
    }
    assert cs == all;
    return Got(ChunkGrant(cs));
  }

  method ReadIds(b: Bytes, releasing: bool) returns (r: Parsed)
    ensures r == ParseIds(b, releasing)
  {
    hide ListEntries, Get32;
    var fault := ListHead(b, CHUNK_ID_SIZE);
    if fault.Some? { return Bad(fault.value); }
    var es := ListEntries(b, CHUNK_ID_SIZE);
    ghost var all := IdsFrom(es);
    var ids: seq<U32> := [];
    for i := 0 to |es|
      invariant ids == all[..i] && IdsDistinct(ids)
    {
      var id := Get32(es[i], 0);
      for j := 0 to i
        invariant forall k :: 0 <= k < j ==> ids[k] != id
      {
        if ids[j] == id {
          assert all[j] == all[i];
          return Bad(InvalidPayload);
        }
      }
      ids := ids + [id];
    }
    assert ids == all;
    return Got(if releasing then Release(ids) else Evict(ids));
  }

  method ReadActivity(b: Bytes) returns (r: Parsed)
    ensures r == ParseActivity(b)
  {
    hide ListEntries, ActivityFrom;
    var fault := ListHead(b, ACTIVITY_SIZE);
    if fault.Some? { return Bad(fault.value); }
    var es := ListEntries(b, ACTIVITY_SIZE);
    ghost var all := seq(|es|, i requires 0 <= i < |es| => ActivityFrom(es[i]));
    var xs: seq<ActivityEntry> := [];
    for i := 0 to |es|
      invariant xs == all[..i] && ActivityDistinct(xs)
    {
      var x := ActivityFrom(es[i]);
      assert all[i] == x;
      for j := 0 to i
        invariant forall k :: 0 <= k < j ==> xs[k].provider != x.provider
      {
        if xs[j].provider == x.provider {
          assert all[j] == xs[j];
          return Bad(InvalidPayload);
        }
      }
      xs := xs + [x];
    }
    assert xs == all;
    return Got(Activity(xs));
  }

  method DecodeFrame(f: Bytes) returns (r: Decoded)
    ensures r == Decode(f)
  {
    hide Get16, Get32, HeaderFrom, HeaderFault, ParseHello, ParseGrant, ParseIds, ParseActivity;
    if |f| > MAX_FRAME_SIZE { return DecodeFault(Oversized); }
    if |f| < HEADER_SIZE { return DecodeFault(Truncated); }
    if Get32(f, 0) != MAGIC { return DecodeFault(BadMagic); }
    var h, kind, size := HeaderFrom(f), Get16(f, 8), Get32(f, 12);
    if size > MAX_FRAME_SIZE - HEADER_SIZE { return DecodeFault(Oversized); }
    if size > |f| - HEADER_SIZE { return DecodeFault(Truncated); }
    if size < |f| - HEADER_SIZE { return DecodeFault(TrailingData); }
    if HeaderFault(h, kind).Some? { return DecodeFault(HeaderFault(h, kind).value); }
    var parsed := ReadPayload(kind, f[HEADER_SIZE..]);
    return if parsed.Got? then Heard(Message(h, parsed.payload)) else DecodeFault(parsed.fault);
  }

  method ReadChallenge(b: Bytes) returns (r: Parsed)
    ensures r == ParsePayload(2, b)
  {
    hide Reserved, Get16;
    if |b| != BLOCK_SIZE + 4 { return Bad(InvalidPayload); }
    var nonce := b[..BLOCK_SIZE];
    var zero := IsReserved(b, BLOCK_SIZE + 2, 2);
    if !zero { return Bad(InvalidPayload); }
    var minor := Get16(b, BLOCK_SIZE);
    return if MinorValid(minor) then Got(Challenge(nonce, minor)) else Bad(InvalidPayload);
  }

  method ReadAccept(b: Bytes) returns (r: Parsed)
    ensures r == ParsePayload(4, b)
  {
    hide Reserved, Get16;
    if |b| != 4 { return Bad(InvalidPayload); }
    var zero := IsReserved(b, 2, 2);
    if !zero { return Bad(InvalidPayload); }
    var minor := Get16(b, 0);
    return if MinorValid(minor) then Got(Accept(minor)) else Bad(InvalidPayload);
  }

  method ReadStatus(b: Bytes) returns (r: Parsed)
    ensures r == ParsePayload(6, b)
  {
    hide Get32;
    if |b| != 16 { return Bad(InvalidPayload); }
    var opportunistic, committed, deadline, flags := Get32(b, 0), Get32(b, 4), Get32(b, 8), Get32(b, 12);
    return if DeadlineValid(deadline) then Got(Status(opportunistic, committed, deadline, flags)) else Bad(InvalidPayload);
  }

  method ReadChunkRequest(b: Bytes) returns (r: Parsed)
    ensures r == ParsePayload(7, b)
  {
    hide Reserved, Get32;
    if |b| != 12 { return Bad(InvalidPayload); }
    var count, start, pool := Get32(b, 0), Get32(b, 4), b[8];
    var zero := IsReserved(b, 9, 3);
    if !zero { return Bad(InvalidPayload); }
    if count == 0 || count > MAX_CHUNKS_PER_FRAME || count - 1 > U32_MAX - start || !PoolValid(pool) {
      return Bad(InvalidPayload);
    }
    return Got(ChunkRequest(count, start, pool));
  }

  method ReadError(b: Bytes) returns (r: Parsed)
    ensures r == ParsePayload(13, b)
  {
    hide Reserved, Get16;
    if |b| != 8 { return Bad(InvalidPayload); }
    var code, offending, retryable := Get16(b, 0), Get16(b, 2), b[4];
    var zero := IsReserved(b, 5, 3);
    if !zero || code < 1 || code > 9 || retryable > 1 { return Bad(InvalidPayload); }
    return Got(Error(code, offending, retryable));
  }

  method ReadPayload(kind: U16, b: Bytes) returns (r: Parsed)
    ensures r == ParsePayload(kind, b)
  {
    hide ParseHello, ParseGrant, ParseIds, ParseActivity, Get16, Get32, PayloadValid;
    match kind
    case 1 => r := ReadHello(b);
    case 2 => r := ReadChallenge(b);
    case 3 => r := if |b| != BLOCK_SIZE then Bad(InvalidPayload) else Got(Auth(b));
    case 4 => r := ReadAccept(b);
    case 5 => r := if |b| != 0 then Bad(InvalidPayload) else Got(StatusRequest);
    case 6 => r := ReadStatus(b);
    case 7 => r := ReadChunkRequest(b);
    case 8 => r := ReadGrant(b);
    case 9 => r := ReadIds(b, false);
    case 10 => r := ReadActivity(b);
    case 11 => r := ReadIds(b, true);
    case 12 => r := if |b| != 0 then Bad(InvalidPayload) else Got(Goodbye);
    case 13 => r := ReadError(b);
    case _ => r := Bad(UnknownMessage);
  }
}
