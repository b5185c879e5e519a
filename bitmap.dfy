/*
 * Resource bitmaps of the EDMA3 resource manager and the bit scans
 * findBitInWord / findBit that the contiguous allocator is built on.
 *
 * A bitmap of n 32-bit words is modelled as a sequence of 32 * n booleans:
 * entry i stands for bit i % 32 of word i / 32 (true = bit set).
 */
module Bitmap {

  import opened Word32

  /** A bitmap, one entry per resource id. */
  type Bits = seq<bool>

  /** Word `w` of bitmap `m`, least significant bit first. */
  function Word(m: Bits, w: nat): (r: seq<bool>)
    requires 32 * w + 32 <= |m|
    ensures |r| == 32
    ensures forall q :: 0 <= q < 32 ==> r[q] == m[32 * w + q]
  {
    m[32 * w .. 32 * w + 32]
  }

  // ---------------------------------------------------------------------
  // findBitInWord

  /**
   * The first bit position q in [from, 32) of `word` whose value is `want`,
   * or -1 when there is none.
   */
  function FirstInWord(word: seq<bool>, from: nat, want: bool): (r: int)
    requires |word| == 32 && from <= 32
    ensures -1 <= r < 32
    ensures r >= 0 ==> from <= r && word[r] == want
    ensures forall q :: from <= q < (if r < 0 then 32 else r) ==> word[q] != want
    decreases 32 - from
  {
    if from == 32 then -1
    else if word[from] == want then from
    else FirstInWord(word, from + 1, want)
  }

  /**
   * What findBitInWord returns: the absolute position (counted from
   * `start`) of the first `bit` at or after bit start % 32 of the word, or
   * -1 when there is none or `bit` is neither 0 nor 1.
   */
  function WordSearch(word: seq<bool>, start: nat, bit: int): (r: int)
    requires |word| == 32
  {
    if bit != 0 && bit != 1 then -1
    else
      var f := FirstInWord(word, start % 32, bit == 1);
      if f < 0 then -1 else start - start % 32 + f
  }

  /**
   * findBitInWord: shifts the word right by start % 32 and then one place
   * at a time, testing the low bit. The shifted word is the suffix of the
   * bit sequence; "the shifted word is zero" is "no true left in it".
   */
  method FindBitInWord(source: seq<bool>, start: nat, bit: int) returns (r: int)
    requires |source| == 32
    ensures r == WordSearch(source, start, bit)
  {
    var position := start;
    var found := false;
    if bit == 1 {
      var src := source[start % 32..];
      while !found && true in src
        invariant start % 32 <= position - start + start % 32 <= 32
        invariant src == source[position - start + start % 32..]
        invariant forall q :: start % 32 <= q < position - start + start % 32 ==> !source[q]
        invariant found ==> src != [] && src[0]
        decreases |src|, !found
      {
        if src[0] {
          found := true;
        } else {
          src := src[1..];
          position := position + 1;
        }
      }
      assert !found ==> forall q :: position - start + start % 32 <= q < 32 ==> !source[q] by {
        if !found {
          forall q | position - start + start % 32 <= q < 32
            ensures !source[q]
          {
            assert src[q - (position - start + start % 32)] == source[q];
          }
        }
      }
    } else if bit == 0 {
      var src := source[start % 32..];
      var iterationsLeft := 32 - start % 32;
      while !found && iterationsLeft > 0
        invariant iterationsLeft == 32 - (position - start + start % 32) >= 0
        invariant src == source[position - start + start % 32..]
        invariant forall q :: start % 32 <= q < position - start + start % 32 ==> source[q]
        invariant found ==> src != [] && !src[0]
        decreases iterationsLeft, !found
      {
        if src[0] {
          src := src[1..];
          position := position + 1;
          iterationsLeft := iterationsLeft - 1;
        } else {
          found := true;
        }
      }
    }
    r := if found then position else -1;
  }

  // ---------------------------------------------------------------------
  // findBit

  /**
   * The first resource id p in [from, limit) whose entry in `m` equals
   * `want`, or -1 when there is none.
   */
  function FirstFrom(m: Bits, from: nat, limit: nat, want: bool): (r: int)
    requires limit <= |m|
    ensures r == -1 || (from <= r < limit && m[r] == want)
    ensures forall p :: from <= p < (if r < 0 then limit else r) ==> m[p] != want
    decreases limit - from
  {
    if from >= limit then -1
    else if m[from] == want then from
    else FirstFrom(m, from + 1, limit, want)
  }

  /**
   * What findBit returns: the first `bit` at or after `start` in the words
   * start / 32 .. end / 32 (bits of the last word past `end` included), or -1.
   */
  function BitSearch(m: Bits, start: nat, end: nat, bit: int): (r: int)
    requires 32 * (end / 32) + 32 <= |m|
  {
    if bit != 0 && bit != 1 then -1
    else FirstFrom(m, start, 32 * (end / 32) + 32, bit == 1)
  }

  /** Searching word i from bit q is searching the bitmap inside that word. */
  lemma {:induction false} InWord(m: Bits, i: nat, q: nat, want: bool)
    requires 32 * i + 32 <= |m| && q <= 32
    ensures var f := FirstInWord(Word(m, i), q, want);
      FirstFrom(m, 32 * i + q, 32 * i + 32, want) == (if f < 0 then -1 else 32 * i + f)
    decreases 32 - q
  {
    if q < 32 && Word(m, i)[q] != want {
      InWord(m, i, q + 1, want);
    }
  }

  /** Searching [a, c) is searching [a, b), then [b, c) when nothing was found. */
  lemma FirstFromSplit(m: Bits, a: nat, b: nat, c: nat, want: bool)
    requires a <= b <= c <= |m|
    ensures FirstFrom(m, a, c, want) ==
      (var f := FirstFrom(m, a, b, want); if f >= 0 then f else FirstFrom(m, b, c, want))
  {
    var f := FirstFrom(m, a, b, want);
    var g := FirstFrom(m, a, c, want);
    if f < 0 {
      var h := FirstFrom(m, b, c, want);
      if h >= 0 {
        assert m[h] == want;
      }
    }
  }

  /**
   * The search of the first word: a hit is the answer of the whole search;
   * a miss means nothing in [start, end of the first word).
   */
  lemma FirstWordStep(m: Bits, start: nat, end: nat, bit: int)
    requires start <= end && 32 * (end / 32) + 32 <= |m| && (bit == 0 || bit == 1)
    ensures var p := WordSearch(Word(m, start / 32), start, bit);
      (p != -1 ==> p == BitSearch(m, start, end, bit)) &&
      (p == -1 ==> FirstFrom(m, start, 32 * (start / 32) + 32, bit == 1) == -1)
  {
    InWord(m, start / 32, start % 32, bit == 1);
    FirstFromSplit(m, start, 32 * (start / 32) + 32, 32 * (end / 32) + 32, bit == 1);
  }

  /**
   * Nothing found from `start` up to word i: a hit inside word i is the
   * answer of the whole search; a miss extends the empty range over word i.
   */
  lemma WholeWordStep(m: Bits, start: nat, i: nat, last: nat, want: bool)
    requires start <= 32 * i && i <= last && 32 * last + 32 <= |m|
    requires FirstFrom(m, start, 32 * i, want) == -1
    ensures var g := FirstFrom(m, 32 * i, 32 * i + 32, want);
      (g != -1 ==> g == FirstFrom(m, start, 32 * last + 32, want)) &&
      (g == -1 ==> FirstFrom(m, start, 32 * i + 32, want) == -1)
  {
    RangeStep(m, start, 32 * i, 32 * i + 32, 32 * last + 32, want);
  }

  /**
   * Nothing found in [start, lo): a hit in [lo, hi) is the hit of
   * [start, end); a miss there extends the empty range to hi.
   */
  lemma RangeStep(m: Bits, start: nat, lo: nat, hi: nat, end: nat, want: bool)
    requires start <= lo <= hi <= end <= |m| && FirstFrom(m, start, lo, want) == -1
    ensures var g := FirstFrom(m, lo, hi, want);
      (g != -1 ==> g == FirstFrom(m, start, end, want)) &&
      (g == -1 ==> FirstFrom(m, start, hi, want) == -1)
  {
    FirstFromMiss(m, start, lo, hi, want);
    if FirstFrom(m, lo, hi, want) != -1 {
      FirstFromMiss(m, start, lo, end, want);
      FirstFromHit(m, lo, hi, end, want);
    }
  }

  /** Nothing in [a, b): searching [a, c) is searching [b, c). */
  lemma FirstFromMiss(m: Bits, a: nat, b: nat, c: nat, want: bool)
    requires a <= b <= c <= |m| && FirstFrom(m, a, b, want) == -1
    ensures FirstFrom(m, a, c, want) == FirstFrom(m, b, c, want)
  {
    FirstFromSplit(m, a, b, c, want);
  }

  /** A hit in [a, b) is the hit of [a, c). */
  lemma FirstFromHit(m: Bits, a: nat, b: nat, c: nat, want: bool)
    requires a <= b <= c <= |m| && FirstFrom(m, a, b, want) != -1
    ensures FirstFrom(m, a, c, want) == FirstFrom(m, a, b, want)
  {
    FirstFromSplit(m, a, b, c, want);
  }

  /** findBitInWord from bit 0 searches the bitmap over the whole word i. */
  lemma WholeWordSearch(m: Bits, i: nat, bit: int)
    requires 32 * i + 32 <= |m| && (bit == 0 || bit == 1)
    ensures var p := WordSearch(Word(m, i), 0, bit);
      var g := FirstFrom(m, 32 * i, 32 * i + 32, bit == 1);
      (p == -1 <==> g == -1) && (p != -1 ==> g == 32 * i + p)
  {
    InWord(m, i, 0, bit == 1);
  }

  /**
   * findBit: searches the first word from `start`, then the whole words
   * between, then the last word, and rejects a hit below `start`.
   */
  method FindBit(m: Bits, start: nat, end: nat, bit: int) returns (r: int)
    requires start <= end && 32 * (end / 32) + 32 <= |m|
    ensures r == BitSearch(m, start, end, bit)
  {
    var si := start / 32;
    var ei := end / 32;
    if bit != 0 && bit != 1 {
      return -1;
    }
    var ret := -1;
    var position := FindBitInWord(Word(m, si), start, bit);
    FirstWordStep(m, start, end, bit);
    if position != -1 {
      ret := position;
    } else {
      var i := si + 1;
      while i <= ei - 1
        invariant si + 1 <= i <= ei || (i == si + 1 && ei == si)
        invariant FirstFrom(m, start, 32 * i, bit == 1) == -1
        invariant ret == -1
      {
        position := FindBitInWord(Word(m, i), 0, bit);
        WholeWordSearch(m, i, bit);
        WholeWordStep(m, start, i, ei, bit == 1);
        if position != -1 {
          ret := position + i * 32;
          break;
        }
        i := i + 1;
      }
      if ret == -1 {
        position := FindBitInWord(Word(m, ei), 0, bit);
        LastWordStep(m, start, end, i, bit);
        ret := if position != -1 then position + ei * 32 else -1;
      }
    }
    r := if ret >= start then ret else -1;
  }

  /**
   * The search of the last word from bit 0 once nothing was found from
   * `start` up to word i (the last word itself, or the word after it when
   * the last word is the first): a hit at or past `start` is the answer,
   * and a hit below `start` is one the first-word search already passed.
   */
  lemma LastWordStep(m: Bits, start: nat, end: nat, i: nat, bit: int)
    requires start <= end && 32 * (end / 32) + 32 <= |m| && (bit == 0 || bit == 1)
    requires (i == end / 32 && start <= 32 * i) || (i == end / 32 + 1 && start / 32 == end / 32)
    requires FirstFrom(m, start, 32 * i, bit == 1) == -1
    ensures var p := WordSearch(Word(m, end / 32), 0, bit);
      var ret := if p != -1 then p + 32 * (end / 32) else -1;
      (if ret >= start then ret else -1) == BitSearch(m, start, end, bit)
  {
    var lo := 32 * (end / 32);
    WholeWordSearch(m, end / 32, bit);
    if i != end / 32 {
      assert lo + 32 == 32 * i && lo == 32 * (start / 32) <= start;
    }
    TailStep(m, start, lo, lo + 32, bit == 1);
  }

  /**
   * A hit of [lo, hi) kept only when it is at or past `start` is the hit of
   * [start, hi), once nothing was found from `start` up to lo (or up to hi
   * when `start` lies inside [lo, hi)).
   */
  lemma TailStep(m: Bits, start: nat, lo: nat, hi: nat, want: bool)
    requires lo <= hi <= |m| && start <= hi
    requires (start <= lo && FirstFrom(m, start, lo, want) == -1) ||
             (lo <= start && FirstFrom(m, start, hi, want) == -1)
    ensures var g := FirstFrom(m, lo, hi, want);
      (if g >= start then g else -1) == FirstFrom(m, start, hi, want)
  {
    var g := FirstFrom(m, lo, hi, want);
    if start <= lo && FirstFrom(m, start, lo, want) == -1 {
      FirstFromMiss(m, start, lo, hi, want);
    } else {
      assert forall p :: start <= p < hi ==> m[p] != want;
    }
  }

  // ---------------------------------------------------------------------
  // allocAnyContigRes

  /** No entry past `end` is set (the ids a search up to `end` may see). */
  predicate NoneBeyond(m: Bits, end: nat)
  {
    forall i :: end < i < |m| ==> !m[i]
  }

  /**
   * A run of `n` set entries starting at p fits below `end`; for n = 0 the
   * allocator still needs entry p itself to be set.
   */
  predicate Fits(m: Bits, p: nat, n: nat, end: nat)
    requires end < |m|
  {
    p <= end && m[p] && p + n <= end + 1 && forall i :: p <= i < p + n ==> m[i]
  }

  /**
   * allocAnyContigRes, with the second findBit call made only when
   * first_one + 1 <= end (the source calls it unconditionally, so a '1' at
   * `end` starts a search past `end`: RoundCallsAsWritten and
   * RoundCallsAsWrittenPastEnd below). Searches for the first '1', then
   * for the next '0', and accepts the run when it is long enough.
   */
  method AllocAnyContigRes(m: Bits, end: nat, n: nat) returns (found: bool, pos: nat)
    requires 32 * (end / 32) + 32 <= |m| && end < 0x8000_0000 && IsU32(n)
    ensures NoneBeyond(m, end) ==> (found <==> exists p: nat :: Fits(m, p, n, end))
    ensures NoneBeyond(m, end) && found ==>
      Fits(m, pos, n, end) && forall p: nat :: p < pos ==> !Fits(m, p, n, end)
  {
    ghost var lim := 32 * (end / 32) + 32;
    var start := 0;
    found := false;
    pos := 0;
    while !found && start <= end && end - start + 1 >= n
      invariant start <= lim + 1
      invariant NoneBeyond(m, end) ==> forall p: nat :: p < start ==> !Fits(m, p, n, end)
      invariant NoneBeyond(m, end) && found ==>
        Fits(m, pos, n, end) && forall p: nat :: p < pos ==> !Fits(m, p, n, end)
      decreases lim + 1 - start, !found
    {
      var firstOne := FindBit(m, start, end, 1);
      if firstOne == -1 {
        NoOneLeft(m, start, end, n);
        break;
      }
      var nextZero := -1;
      if firstOne + 1 <= end {
        nextZero := FindBit(m, firstOne + 1, end, 0);
      }
      if nextZero == -1 {
        nextZero := end + 1;
      }
      RunBetween(m, start, end, n, firstOne, nextZero);
      if Wrap32(nextZero - firstOne) >= n {
        found := true;
        pos := firstOne;
      } else {
        start := nextZero + 1;
      }
    }
  }

  /** No set entry from `start` on: no run fits from `start` on. */
  lemma NoOneLeft(m: Bits, start: nat, end: nat, n: nat)
    requires 32 * (end / 32) + 32 <= |m| && start <= end
    requires BitSearch(m, start, end, 1) == -1
    ensures NoneBeyond(m, end) ==> forall p: nat :: start <= p ==> !Fits(m, p, n, end)
  {
    var lim := 32 * (end / 32) + 32;
    if NoneBeyond(m, end) {
      forall p: nat | start <= p
        ensures !Fits(m, p, n, end)
      {
        if p <= end {
          assert !m[p];
        }
      }
    }
  }

  /**
   * One round of the search: f is the first set entry from `start` and z
   * the first clear one after it (end + 1 when there is none up to `end`).
   * The entries [f, z) are a maximal run.
   */
  lemma RunBetween(m: Bits, start: nat, end: nat, n: nat, f: int, z: int)
    requires 32 * (end / 32) + 32 <= |m| && start <= end < 0x8000_0000 && n <= end + 1
    requires f == BitSearch(m, start, end, 1) && f != -1
    requires z == (if f + 1 <= end && BitSearch(m, f + 1, end, 0) != -1
                   then BitSearch(m, f + 1, end, 0) else end + 1)
    ensures start <= f && z <= 32 * (end / 32) + 32
    ensures f <= z || Wrap32(z - f) >= n
    ensures NoneBeyond(m, end) ==>
      f < z <= end + 1 && (forall p: nat :: start <= p < f ==> !Fits(m, p, n, end)) &&
      (z - f >= n ==> Fits(m, f, n, end)) &&
      (z - f < n ==> forall p: nat :: f <= p <= z ==> !Fits(m, p, n, end))
  {
    var lim := 32 * (end / 32) + 32;
    if z < f {
      assert z - f > -32;
    }
    if NoneBeyond(m, end) {
      assert f <= end;
      if end + 1 < lim {
        assert !m[end + 1];
      }
      assert forall i :: f <= i < z ==> m[i];
      forall p: nat | start <= p < f
        ensures !Fits(m, p, n, end)
      {
        assert !m[p];
      }
      if z - f < n {
        forall p: nat | f <= p <= z
          ensures !Fits(m, p, n, end)
        {
          if z <= end {
            assert !m[z];
          }
        }
      }
    }
  }

  /**
   * The (start, end) arguments of the findBit calls one round of the
   * source's allocAnyContigRes makes: the search for a '1' from `start`,
   * then, when one was found at f, the search for a '0' from f + 1 -- made
   * even when f is `end` itself.
   */
  function RoundCallsAsWritten(m: Bits, start: nat, end: nat): (r: seq<(nat, nat)>)
    requires 32 * (end / 32) + 32 <= |m| && start <= end
    ensures 1 <= |r| <= 2 && r[0] == (start, end)
    ensures |r| == 2 ==>
      start < r[1].0 <= 32 * (end / 32) + 32 && r[1].1 == end && m[r[1].0 - 1]
  {
    var f := BitSearch(m, start, end, 1);
    if f == -1 then [(start, end)] else [(start, end), (f + 1, end)]
  }

  /**
   * With only DMA channel 63 free, the second call of the first round
   * searches from 64 to 63: findBit's `start <= end` fails and word 64 / 32
   * lies past the two words of the DMA bitmap.
   */
  lemma RoundCallsAsWrittenPastEnd()
    ensures var m := seq(63, i => false) + [true];
      var r := RoundCallsAsWritten(m, 0, 63);
      |r| == 2 && r[1].0 > r[1].1 && r[1].0 / 32 == |m| / 32
  {
    var m := seq(63, i => false) + [true];
    assert FirstFrom(m, 0, 64, true) == 63 by {
      assert m[63];
      assert forall p :: 0 <= p < 63 ==> !m[p];
    }
  }
}
