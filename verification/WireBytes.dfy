/**
 Bytes on the wire: unsigned integers in network order, zero-terminated text, bit
 masks, and lists of fixed-size entries, with the round trips each completes.
 */
module WireBytes {

  type U8 = n: nat | n < 0x100 witness 0
  type U16 = n: nat | n < 0x1_0000 witness 0
  type U32 = n: nat | n < 0x1_0000_0000 witness 0
  type U64 = n: nat | n < 0x1_0000_0000_0000_0000 witness 0
  type Bytes = seq<U8>

  // Text holds no zero byte; a zero ends it.
  type Text = t: Bytes | forall i :: 0 <= i < |t| ==> t[i] != 0

  // ---------------------------------------------------------------- integers

  function Put16(v: U16): (b: Bytes)
    ensures |b| == 2
  {
    [v / 0x100, v % 0x100]
  }

  function Put32(v: U32): (b: Bytes)
    ensures |b| == 4
  {
    Put16(v / 0x1_0000) + Put16(v % 0x1_0000)
  }

  function Put64(v: U64): (b: Bytes)
    ensures |b| == 8
  {
    Put32(v / 0x1_0000_0000) + Put32(v % 0x1_0000_0000)
  }

  function Get16(b: Bytes, i: nat): U16
    requires i + 2 <= |b|
  {
    b[i] as int * 0x100 + b[i + 1] as int
  }

  function Get32(b: Bytes, i: nat): U32
    requires i + 4 <= |b|
  {
    Get16(b, i) as int * 0x1_0000 + Get16(b, i + 2) as int
  }

  function Get64(b: Bytes, i: nat): U64
    requires i + 8 <= |b|
  {
    Get32(b, i) as int * 0x1_0000_0000 + Get32(b, i + 4) as int
  }

  lemma PutGet16(b: Bytes, i: nat, v: U16)
    requires i + 2 <= |b|
    ensures b[i..i + 2] == Put16(v) <==> Get16(b, i) == v
  {
    var x := b[i..i + 2];
    assert x[0] == b[i] && x[1] == b[i + 1];
    if Get16(b, i) == v { assert x == Put16(v); }
  }

  lemma PutGet32(b: Bytes, i: nat, v: U32)
    requires i + 4 <= |b|
    ensures b[i..i + 4] == Put32(v) <==> Get32(b, i) == v
  {
    hide Put16, Get16;
    var x := b[i..i + 4];
    assert x[..2] == b[i..i + 2] && x[2..] == b[i + 2..i + 4];
    var high, low := v / 0x1_0000, v % 0x1_0000;
    PutGet16(b, i, high);
    PutGet16(b, i + 2, low);
    assert x == x[..2] + x[2..];
    assert Put32(v)[..2] == Put16(high) && Put32(v)[2..] == Put16(low);
  }

  lemma PutGet64(b: Bytes, i: nat, v: U64)
    requires i + 8 <= |b|
    ensures b[i..i + 8] == Put64(v) <==> Get64(b, i) == v
  {
    hide Put32, Get32;
    var x := b[i..i + 8];
    assert x[..4] == b[i..i + 4] && x[4..] == b[i + 4..i + 8];
    var high, low := v / 0x1_0000_0000, v % 0x1_0000_0000;
    PutGet32(b, i, high);
    PutGet32(b, i + 4, low);
    assert x == x[..4] + x[4..];
    assert Put64(v)[..4] == Put32(high) && Put64(v)[4..] == Put32(low);
  }

  // -------------------------------------------------------------------- bits

  // Every bit of a is set in b.
  predicate BitsWithin(a: nat, b: nat) {
    a == 0 || (a % 2 <= b % 2 && BitsWithin(a / 2, b / 2))
  }

  function BothOdd(a: nat, b: nat): nat { if a % 2 == 1 && b % 2 == 1 then 1 else 0 }

  function BitAnd(a: nat, b: nat): (r: nat)
    ensures r <= a && r <= b
  {
    if a == 0 || b == 0 then 0 else BothOdd(a, b) + 2 * BitAnd(a / 2, b / 2)
  }

  function BitOr(a: nat, b: nat): (r: nat) {
    if a == 0 then b else if b == 0 then a
    else (if a % 2 == 1 || b % 2 == 1 then 1 else 0) + 2 * BitOr(a / 2, b / 2)
  }

  lemma {:induction false} AndWithin(a: nat, b: nat)
    ensures BitsWithin(BitAnd(a, b), a) && BitsWithin(BitAnd(a, b), b)
  {
    if a != 0 && b != 0 {
      AndWithin(a / 2, b / 2);
      Halves(BothOdd(a, b), BitAnd(a / 2, b / 2));
    }
  }

  lemma Halves(low: nat, high: nat)
    requires low < 2
    ensures (low + 2 * high) % 2 == low && (low + 2 * high) / 2 == high
  {}

  lemma {:induction false} WithinAnd(x: nat, a: nat, b: nat)
    ensures BitsWithin(x, BitAnd(a, b)) <==> BitsWithin(x, a) && BitsWithin(x, b)
    decreases a
  {
    if x == 0 {
    } else if a == 0 || b == 0 {
      NothingWithinZero(x);
    } else {
      WithinAnd(x / 2, a / 2, b / 2);
      Halves(BothOdd(a, b), BitAnd(a / 2, b / 2));
    }
  }

  lemma {:induction false} NothingWithinZero(x: nat)
    requires x != 0
    ensures !BitsWithin(x, 0)
  {
    if x % 2 == 0 { NothingWithinZero(x / 2); }
  }

  lemma {:induction false} OrWithin(a: nat, b: nat, x: nat)
    ensures BitsWithin(BitOr(a, b), x) <==> BitsWithin(a, x) && BitsWithin(b, x)
    decreases a
  {
    if a != 0 && b != 0 {
      OrWithin(a / 2, b / 2, x / 2);
      Halves(if a % 2 == 1 || b % 2 == 1 then 1 else 0, BitOr(a / 2, b / 2));
    }
  }

  // ------------------------------------------------------------------- text

  // What precedes the first zero byte.
  function TextOf(b: Bytes): (t: Text)
    ensures |t| <= |b| && t == b[..|t|] && (|t| < |b| ==> b[|t|] == 0)
  {
    if b == [] || b[0] == 0 then [] else [b[0]] + TextOf(b[1..])
  }

  lemma TextWhole(b: Bytes)
    ensures TextOf(b) == b <==> 0 !in b
  {
    if TextOf(b) != b {
      assert b[|TextOf(b)|] == 0;
    }
  }

  // -------------------------------------------------------- fixed-size entries

  function Flatten(entries: seq<Bytes>): Bytes {
    if entries == [] then [] else Flatten(entries[..|entries| - 1]) + entries[|entries| - 1]
  }

  ghost predicate Uniform(entries: seq<Bytes>, size: nat) {
    forall i :: 0 <= i < |entries| ==> |entries[i]| == size
  }

  function Entry(b: Bytes, size: nat, i: nat): (e: Bytes)
    requires (i + 1) * size <= |b|
    ensures |e| == size
  {
    b[i * size..i * size + size]
  }

  lemma EntryFits(size: nat, i: nat, n: nat)
    requires i < n
    ensures (i + 1) * size <= n * size
  {}

  function Entries(b: Bytes, size: nat, n: nat): (es: seq<Bytes>)
    requires n * size <= |b|
    ensures |es| == n && Uniform(es, size)
  {
    if n == 0 then [] else (EntryFits(size, n - 1, n); Entries(b, size, n - 1) + [Entry(b, size, n - 1)])
  }

  lemma {:induction false} EntryAt(b: Bytes, size: nat, n: nat, i: nat)
    requires i < n && n * size <= |b|
    ensures (i + 1) * size <= |b| && Entries(b, size, n)[i] == Entry(b, size, i)
  {
    EntryFits(size, i, n);
    if i < n - 1 { EntryAt(b, size, n - 1, i); }
  }

  lemma {:induction false} FlattenSize(entries: seq<Bytes>, size: nat)
    requires Uniform(entries, size)
    ensures |Flatten(entries)| == |entries| * size
  {
    if entries != [] {
      var n := |entries| - 1;
      FlattenSize(entries[..n], size);
      assert n * size + size == (n + 1) * size;
    }
  }

  lemma {:induction false} EntriesPrefix(b: Bytes, more: Bytes, size: nat, n: nat)
    requires n * size <= |b|
    ensures Entries(b + more, size, n) == Entries(b, size, n)
  {
    if n > 0 {
      EntryFits(size, n - 1, n);
      EntriesPrefix(b, more, size, n - 1);
      EntryPrefix(b, more, (n - 1) * size, size);
    }
  }

  lemma EntryPrefix(b: Bytes, more: Bytes, start: nat, size: nat)
    requires start + size <= |b|
    ensures (b + more)[start..start + size] == b[start..start + size]
  {}

  // Splitting what was joined gives the entries back.
  lemma {:induction false} SplitJoined(entries: seq<Bytes>, size: nat)
    requires Uniform(entries, size)
    ensures |Flatten(entries)| == |entries| * size && Entries(Flatten(entries), size, |entries|) == entries
  {
    FlattenSize(entries, size);
    if entries != [] {
      var n := |entries| - 1;
      SplitJoined(entries[..n], size);
      EntriesPrefix(Flatten(entries[..n]), entries[n], size, n);
      assert Entry(Flatten(entries), size, n) == entries[n];
    }
  }

  // Joining what was split gives the bytes back.
  lemma {:induction false} JoinSplit(b: Bytes, size: nat, n: nat)
    requires |b| == n * size
    ensures Flatten(Entries(b, size, n)) == b
  {
    if n > 0 {
      var cut := (n - 1) * size;
      assert n * size == cut + size;
      var head, tail := b[..cut], b[cut..];
      assert b == head + tail;
      JoinSplit(head, size, n - 1);
      EntriesPrefix(head, tail, size, n - 1);
      LastEntry(b, size, n);
    }
  }

  lemma LastEntry(b: Bytes, size: nat, n: nat)
    requires n > 0 && |b| == n * size
    ensures (n - 1) * size <= |b|
    ensures Flatten(Entries(b, size, n)) == Flatten(Entries(b, size, n - 1)) + b[(n - 1) * size..]
  {
    EntryFits(size, n - 1, n);
    var es := Entries(b, size, n);
    assert es[..n - 1] == Entries(b, size, n - 1);
    assert es[n - 1] == b[(n - 1) * size..];
  }
}
