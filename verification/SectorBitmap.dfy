/**
 The validity bitmap of the Remote Chunk module: one bit a sector, packed into
 64-bit words that are read and written with word-sized masks. The routine is
 proved against a set of sectors.
 */
module SectorBitmap {

  const WORD_BITS: nat := 64

  datatype Operation = Test | Clear | Set

  // ------------------------------------------------------------ machine words

  // An unsigned 64-bit word, least significant bit first.
  type Word = w: seq<bool> | |w| == WORD_BITS witness seq(WORD_BITS, _ => false)

  function BitOf(value: nat, bit: nat): bool {
    if bit == 0 then value % 2 == 1 else BitOf(value / 2, bit - 1)
  }

  // The word that holds `value` modulo two to the sixty-fourth.
  function WordOf(value: nat): Word {
    seq(WORD_BITS, bit requires 0 <= bit => BitOf(value, bit))
  }

  function And(a: Word, b: Word): Word {
    seq(WORD_BITS, bit requires 0 <= bit < WORD_BITS => a[bit] && b[bit])
  }

  function Or(a: Word, b: Word): Word {
    seq(WORD_BITS, bit requires 0 <= bit < WORD_BITS => a[bit] || b[bit])
  }

  function Not(a: Word): Word {
    seq(WORD_BITS, bit requires 0 <= bit < WORD_BITS => !a[bit])
  }

  function Pow2(n: nat): (p: nat)
    ensures p >= 1
  {
    if n == 0 then 1 else 2 * Pow2(n - 1)
  }

  function LowBits(count: nat): Word {
    if count >= WORD_BITS then Not(WordOf(0)) else WordOf(Pow2(count) - 1)
  }

  function RangeMask(first: nat, last: nat): Word {
    And(LowBits(last), Not(LowBits(first)))
  }

  lemma {:induction false} ZeroBit(bit: nat)
    ensures !BitOf(0, bit)
  {
    if bit > 0 { ZeroBit(bit - 1); }
  }

  lemma {:induction false} LowBit(count: nat, bit: nat)
    ensures BitOf(Pow2(count) - 1, bit) <==> bit < count
  {
    if count == 0 {
      ZeroBit(bit);
    } else if bit > 0 {
      assert (Pow2(count) - 1) / 2 == Pow2(count - 1) - 1;
      LowBit(count - 1, bit - 1);
    }
  }

  // Shift, subtract and complement produce exactly the bits from `first` to `last`.
  lemma RangeMaskBits(first: nat, last: nat, bit: nat)
    requires bit < WORD_BITS
    ensures RangeMask(first, last)[bit] <==> first <= bit < last
  {
    ZeroBit(bit);
    LowBit(first, bit);
    LowBit(last, bit);
  }

  // ----------------------------------------------------------------- bitmaps

  predicate Within(sector: int, first: nat, count: nat) {
    first <= sector < first + count
  }

  function Range(first: nat, count: nat): set<int> {
    set s | first <= s < first + count && Within(s, first, count)
  }

  predicate Has(words: seq<Word>, sector: int)
    requires 0 <= sector < WORD_BITS * |words|
  {
    words[sector / WORD_BITS][sector % WORD_BITS]
  }

  // The sectors whose bits are set.
  ghost function Members(words: seq<Word>): set<int> {
    set s | 0 <= s < WORD_BITS * |words| && Has(words, s)
  }

  // Bits already visited have been updated, the others have not.
  ghost predicate Updated(before: seq<Word>, after: seq<Word>, first: nat, count: nat, done: int, op: Operation)
  {
    && |before| == |after|
    && forall s {:trigger Has(after, s)} :: 0 <= s < WORD_BITS * |after| ==>
        Has(after, s) == if !op.Test? && first <= s < first + count && s < done then op.Set? else Has(before, s)
  }

  // Where a range starts and stops inside one word, as the loop computes it.
  function LowIn(first: nat, word: nat): nat {
    if first > word * WORD_BITS then first - word * WORD_BITS else 0
  }

  function HighIn(last: nat, word: nat): int {
    if last < word * WORD_BITS + WORD_BITS then last - word * WORD_BITS else WORD_BITS
  }

  lemma MaskCovers(first: nat, count: nat, word: nat, bit: nat)
    requires bit < WORD_BITS && LowIn(first, word) <= HighIn(first + count, word)
    ensures RangeMask(LowIn(first, word), HighIn(first + count, word))[bit] == Within(word * WORD_BITS + bit, first, count)
  {
    RangeMaskBits(LowIn(first, word), HighIn(first + count, word), bit);
  }

  lemma WriteWord(before: seq<Word>, words: seq<Word>, first: nat, count: nat, word: nat, op: Operation, w: Word)
    requires !op.Test? && word < |words| && Updated(before, words, first, count, WORD_BITS * word, op)
    requires LowIn(first, word) <= HighIn(first + count, word)
    requires var mask := RangeMask(LowIn(first, word), HighIn(first + count, word));
      w == if op.Set? then Or(words[word], mask) else And(words[word], Not(mask))
    ensures Updated(before, words[word := w], first, count, WORD_BITS * (word + 1), op)
  {
    var after := words[word := w];
    forall s {:trigger Has(after, s)} | 0 <= s < WORD_BITS * |after|
      ensures Has(after, s) ==
        if first <= s < first + count && s < WORD_BITS * (word + 1) then op.Set? else Has(before, s)
    {
      assert Has(words, s) == if first <= s < first + count && s < WORD_BITS * word then op.Set? else Has(before, s);
      if s / WORD_BITS == word {
        MaskCovers(first, count, word, s % WORD_BITS);
      }
    }
  }

  lemma UpdatedMembers(before: seq<Word>, after: seq<Word>, first: nat, count: nat, done: int, op: Operation)
    requires Updated(before, after, first, count, done, op)
    requires first + count <= done && first + count <= WORD_BITS * |before|
    ensures op.Set? ==> Members(after) == Members(before) + Range(first, count)
    ensures op.Clear? ==> Members(after) == Members(before) - Range(first, count)
  {}

  // The sectors of the range that lie in words before `word` are all set.
  ghost predicate AllSetBefore(words: seq<Word>, first: nat, count: nat, word: nat)
    requires word <= |words|
  {
    forall s :: 0 <= s < WORD_BITS * word && Within(s, first, count) ==> Has(words, s)
  }

  // Comparing the masked word with the mask decides the next word's sectors.
  lemma TestWord(words: seq<Word>, first: nat, count: nat, word: nat)
    requires word < |words| && LowIn(first, word) <= HighIn(first + count, word)
    requires AllSetBefore(words, first, count, word)
    ensures var mask := RangeMask(LowIn(first, word), HighIn(first + count, word));
      And(words[word], mask) == mask <==> AllSetBefore(words, first, count, word + 1)
  {
    var mask := RangeMask(LowIn(first, word), HighIn(first + count, word));
    forall bit | 0 <= bit < WORD_BITS
      ensures mask[bit] == Within(word * WORD_BITS + bit, first, count)
    {
      MaskCovers(first, count, word, bit);
    }
    if And(words[word], mask) == mask {
      forall s | 0 <= s < WORD_BITS * (word + 1) && Within(s, first, count) ensures Has(words, s) {
        if s / WORD_BITS == word {
          assert And(words[word], mask)[s % WORD_BITS];
        }
      }
    } else {
      var bit :| 0 <= bit < WORD_BITS && And(words[word], mask)[bit] != mask[bit];
      assert !Has(words, word * WORD_BITS + bit);
    }
  }

  lemma TestedMembers(words: seq<Word>, first: nat, count: nat, word: nat)
    requires word <= |words| && first + count <= WORD_BITS * |words|
    ensures !AllSetBefore(words, first, count, word) ==> !(Range(first, count) <= Members(words))
    ensures AllSetBefore(words, first, count, word) && first + count <= WORD_BITS * word ==> Range(first, count) <= Members(words)
  {
    if !AllSetBefore(words, first, count, word) {
      var s :| 0 <= s < WORD_BITS * word && Within(s, first, count) && !Has(words, s);
      assert s in Range(first, count) && s !in Members(words);
    }
  }

  method Apply(words: array<Word>, first: nat, count: nat, op: Operation) returns (all: bool)
    requires count > 0 && first + count <= WORD_BITS * words.Length
    modifies words
    ensures op.Test? ==> words[..] == old(words[..]) && (all <==> Range(first, count) <= Members(words[..]))
    ensures op.Set? ==> Members(words[..]) == old(Members(words[..])) + Range(first, count)
    ensures op.Clear? ==> Members(words[..]) == old(Members(words[..])) - Range(first, count)
  {
    hide Members, And, Or, Not, RangeMask;
    ghost var before := words[..];
    var last := first + count;
    var word := first / WORD_BITS;
    var lastWord := (last - 1) / WORD_BITS;
    all := true;
    while word <= lastWord
      invariant first / WORD_BITS <= word <= lastWord + 1
      invariant Updated(before, words[..], first, count, WORD_BITS * word, op)
      invariant op.Test? ==> words[..] == before && AllSetBefore(before, first, count, word)
    {
      var mask := RangeMask(LowIn(first, word), HighIn(last, word));
      if op.Test? {
        TestWord(before, first, count, word);
        TestedMembers(before, first, count, word + 1);
        if And(words[word], mask) != mask {
          return false;
        }
      } else {
        ghost var now := words[..];
        words[word] := if op.Set? then Or(words[word], mask) else And(words[word], Not(mask));
        WriteWord(before, now, first, count, word, op, words[word]);
        assert words[..] == now[word := words[word]];
      }
      word := word + 1;
    }
    UpdatedMembers(before, words[..], first, count, WORD_BITS * word, op);
    TestedMembers(before, first, count, word);
  }
}
