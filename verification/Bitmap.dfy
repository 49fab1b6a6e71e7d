/** The bitmap macros: single-bit tests and updates on 32-bit words, and a
    bitmap as a sequence of such words. */
module Bitmap {

  /** `is_set(x, pos)`. */
  predicate IsSet(w: bv32, pos: nat)
    requires pos < 32
  {
    (w >> (pos as bv32)) & 1 == 1
  }

  /** `set_bit(x, pos)`. */
  function SetBit(w: bv32, pos: nat): bv32
    requires pos < 32
  {
    w | (1 << (pos as bv32))
  }

  /** `clear_bit(x, pos)`, written with an exclusive or as the macro is. */
  function ClearBit(w: bv32, pos: nat): bv32
    requires pos < 32
  {
    w ^ (((w >> (pos as bv32)) & 1) << (pos as bv32))
  }

  lemma PositionRoundTrip(pos: nat)
    requires pos < 32
    ensures (pos as bv32) as nat == pos
  {
  }

  lemma PositionBelow32(pos: nat)
    requires pos < 32
    ensures pos as bv32 < 32
  {
    PositionRoundTrip(pos);
  }

  lemma PositionInjective(p: nat, q: nat)
    requires p < 32 && q < 32
    ensures p as bv32 == q as bv32 <==> p == q
  {
    var x, y := p as bv32, q as bv32;
    PositionRoundTrip(p);
    PositionRoundTrip(q);
    if x == y {
      assert x as nat == y as nat;
    }
  }

  lemma ShiftedOr(w: bv32, x: bv32, y: bv32)
    requires x < 32 && y < 32
    ensures ((w | (1 << x)) >> y) & 1 == 1 <==> x == y || (w >> y) & 1 == 1
  {
  }

  lemma ShiftedXor(w: bv32, x: bv32, y: bv32)
    requires x < 32 && y < 32
    ensures ((w ^ (((w >> x) & 1) << x)) >> y) & 1 == 1 <==> x != y && (w >> y) & 1 == 1
  {
  }

  /** Setting a bit sets that bit and no other. */
  lemma SetBitAt(w: bv32, p: nat, q: nat)
    requires p < 32 && q < 32
    ensures IsSet(SetBit(w, p), q) <==> p == q || IsSet(w, q)
  {
    PositionBelow32(p);
    PositionBelow32(q);
    PositionInjective(p, q);
    ShiftedOr(w, p as bv32, q as bv32);
  }

  /** Clearing a bit clears that bit and no other, whether or not it was set. */
  lemma ClearBitAt(w: bv32, p: nat, q: nat)
    requires p < 32 && q < 32
    ensures IsSet(ClearBit(w, p), q) <==> p != q && IsSet(w, q)
  {
    PositionBelow32(p);
    PositionBelow32(q);
    PositionInjective(p, q);
    ShiftedXor(w, p as bv32, q as bv32);
  }

  const FULL_WORD: bv32 := 0xffffffff

  ghost predicate SameBit(w: bv32, v: bv32, pos: nat)
    requires pos < 32
  {
    IsSet(w, pos) <==> IsSet(v, pos)
  }

  ghost predicate SameShift(w: bv32, v: bv32, x: bv32)
    requires x < 32
  {
    (w >> x) & 1 == (v >> x) & 1
  }

  lemma ShiftExtensionality(w: bv32, v: bv32)
    requires forall x: bv32 | x < 32 :: SameShift(w, v, x)
    ensures w == v
  {
    assert SameShift(w, v, 0) && SameShift(w, v, 1) && SameShift(w, v, 2) && SameShift(w, v, 3);
    assert SameShift(w, v, 4) && SameShift(w, v, 5) && SameShift(w, v, 6) && SameShift(w, v, 7);
    assert SameShift(w, v, 8) && SameShift(w, v, 9) && SameShift(w, v, 10) && SameShift(w, v, 11);
    assert SameShift(w, v, 12) && SameShift(w, v, 13) && SameShift(w, v, 14) && SameShift(w, v, 15);
    assert SameShift(w, v, 16) && SameShift(w, v, 17) && SameShift(w, v, 18) && SameShift(w, v, 19);
    assert SameShift(w, v, 20) && SameShift(w, v, 21) && SameShift(w, v, 22) && SameShift(w, v, 23);
    assert SameShift(w, v, 24) && SameShift(w, v, 25) && SameShift(w, v, 26) && SameShift(w, v, 27);
    assert SameShift(w, v, 28) && SameShift(w, v, 29) && SameShift(w, v, 30) && SameShift(w, v, 31);
    AllShifts(w, v);
  }

  lemma AllShifts(w: bv32, v: bv32)
    requires (w >> 0) & 1 == (v >> 0) & 1 && (w >> 1) & 1 == (v >> 1) & 1 && (w >> 2) & 1 == (v >> 2) & 1
    requires (w >> 3) & 1 == (v >> 3) & 1 && (w >> 4) & 1 == (v >> 4) & 1 && (w >> 5) & 1 == (v >> 5) & 1
    requires (w >> 6) & 1 == (v >> 6) & 1 && (w >> 7) & 1 == (v >> 7) & 1 && (w >> 8) & 1 == (v >> 8) & 1
    requires (w >> 9) & 1 == (v >> 9) & 1 && (w >> 10) & 1 == (v >> 10) & 1 && (w >> 11) & 1 == (v >> 11) & 1
    requires (w >> 12) & 1 == (v >> 12) & 1 && (w >> 13) & 1 == (v >> 13) & 1 && (w >> 14) & 1 == (v >> 14) & 1
    requires (w >> 15) & 1 == (v >> 15) & 1 && (w >> 16) & 1 == (v >> 16) & 1 && (w >> 17) & 1 == (v >> 17) & 1
    requires (w >> 18) & 1 == (v >> 18) & 1 && (w >> 19) & 1 == (v >> 19) & 1 && (w >> 20) & 1 == (v >> 20) & 1
    requires (w >> 21) & 1 == (v >> 21) & 1 && (w >> 22) & 1 == (v >> 22) & 1 && (w >> 23) & 1 == (v >> 23) & 1
    requires (w >> 24) & 1 == (v >> 24) & 1 && (w >> 25) & 1 == (v >> 25) & 1 && (w >> 26) & 1 == (v >> 26) & 1
    requires (w >> 27) & 1 == (v >> 27) & 1 && (w >> 28) & 1 == (v >> 28) & 1 && (w >> 29) & 1 == (v >> 29) & 1
    requires (w >> 30) & 1 == (v >> 30) & 1 && (w >> 31) & 1 == (v >> 31) & 1
    ensures w == v
  {
  }

  lemma LowBit(a: bv32, b: bv32)
    requires a & 1 == 1 <==> b & 1 == 1
    ensures a & 1 == b & 1
  {
  }

  lemma ShiftIndex(x: bv32)
    requires x < 32
    ensures x as nat < 32 && (x as nat) as bv32 == x
  {
  }

  /** A word is determined by its 32 bits. */
  lemma WordExtensionality(w: bv32, v: bv32)
    requires forall k: nat | k < 32 :: SameBit(w, v, k)
    ensures w == v
  {
    forall x: bv32 | x < 32
      ensures SameShift(w, v, x)
    {
      ShiftIndex(x);
      assert SameBit(w, v, x as nat);
      LowBit(w >> x, v >> x);
    }
    ShiftExtensionality(w, v);
  }

  lemma OnesAt(x: bv32)
    requires x < 32
    ensures (FULL_WORD >> x) & 1 == 1
  {
  }

  /** The scan's test `word == 0xffffffff` says that all 32 bits are set. */
  lemma FullWord(w: bv32)
    ensures w == FULL_WORD <==> forall k: nat | k < 32 :: IsSet(w, k)
  {
    if forall k: nat | k < 32 :: IsSet(w, k) {
      forall k: nat | k < 32
        ensures SameBit(w, FULL_WORD, k)
      {
        PositionBelow32(k);
        OnesAt(k as bv32);
      }
      WordExtensionality(w, FULL_WORD);
    }
  }

  type Words = seq<bv32>

  predicate Bit(ws: Words, i: nat)
    requires i < 32 * |ws|
  {
    IsSet(ws[i / 32], i % 32)
  }

  function SetAt(ws: Words, i: nat): (r: Words)
    requires i < 32 * |ws|
    ensures |r| == |ws|
    ensures forall k: nat | k < 32 * |ws| :: Bit(r, k) <==> k == i || Bit(ws, k)
  {
    var r := ws[i / 32 := SetBit(ws[i / 32], i % 32)];
    assert forall k: nat | k < 32 * |ws| :: Bit(r, k) <==> k == i || Bit(ws, k) by {
      forall k: nat | k < 32 * |ws|
        ensures Bit(r, k) <==> k == i || Bit(ws, k)
      {
        SetBitAt(ws[i / 32], i % 32, k % 32);
      }
    }
    r
  }

  function ClearAt(ws: Words, i: nat): (r: Words)
    requires i < 32 * |ws|
    ensures |r| == |ws|
    ensures forall k: nat | k < 32 * |ws| :: Bit(r, k) <==> k != i && Bit(ws, k)
  {
    var r := ws[i / 32 := ClearBit(ws[i / 32], i % 32)];
    assert forall k: nat | k < 32 * |ws| :: Bit(r, k) <==> k != i && Bit(ws, k) by {
      forall k: nat | k < 32 * |ws|
        ensures Bit(r, k) <==> k != i && Bit(ws, k)
      {
        ClearBitAt(ws[i / 32], i % 32, k % 32);
      }
    }
    r
  }

  /** The bitmap as a sequence of bits. */
  function Bits(ws: Words): (r: seq<bool>)
    ensures |r| == 32 * |ws|
    ensures forall i: nat | i < |r| :: r[i] == Bit(ws, i)
  {
    seq(32 * |ws|, i requires 0 <= i < 32 * |ws| => Bit(ws, i))
  }

  /** The macros change one bit of the sequence. */
  lemma UpdatedBits(ws: Words, i: nat)
    requires i < 32 * |ws|
    ensures Bits(SetAt(ws, i)) == Bits(ws)[i := true]
    ensures Bits(ClearAt(ws, i)) == Bits(ws)[i := false]
  {
  }

  predicate AllSet(bits: seq<bool>, lo: nat, hi: nat)
    requires hi <= |bits|
  {
    forall i: nat | lo <= i < hi :: bits[i]
  }

  lemma WordBit(ws: Words, w: nat, k: nat)
    requires w < |ws| && k < 32
    ensures Bits(ws)[32 * w + k] == IsSet(ws[w], k)
  {
    var i := 32 * w + k;
    assert i / 32 == w && i % 32 == k;
    assert Bits(ws)[i] == Bit(ws, i);
  }

  /** What the scan's full-word test says about the bits. */
  lemma WordBits(ws: Words, w: nat)
    requires w < |ws|
    ensures ws[w] == FULL_WORD <==> AllSet(Bits(ws), 32 * w, 32 * w + 32)
  {
    FullWord(ws[w]);
    if ws[w] == FULL_WORD {
      forall i: nat | 32 * w <= i < 32 * w + 32
        ensures Bits(ws)[i]
      {
        WordBit(ws, w, i - 32 * w);
      }
    }
    if AllSet(Bits(ws), 32 * w, 32 * w + 32) {
      forall k: nat | k < 32
        ensures IsSet(ws[w], k)
      {
        WordBit(ws, w, k);
      }
    }
  }

  lemma ZeroBits(ws: Words)
    requires forall w | 0 <= w < |ws| :: ws[w] == 0
    ensures forall i: nat | i < 32 * |ws| :: !Bits(ws)[i]
  {
    forall i: nat | i < 32 * |ws|
      ensures !Bits(ws)[i]
    {
      PositionBelow32(i % 32);
      ZeroAt((i % 32) as bv32);
    }
  }

  lemma ZeroAt(x: bv32)
    requires x < 32
    ensures ((0 as bv32) >> x) & 1 == 0
  {
  }

  /** Two bitmaps with the same bits are the same words. */
  lemma BitmapExtensionality(ws: Words, vs: Words)
    requires Bits(ws) == Bits(vs)
    ensures ws == vs
  {
    assert |Bits(ws)| == 32 * |ws| && |Bits(vs)| == 32 * |vs|;
    forall w | 0 <= w < |ws|
      ensures ws[w] == vs[w]
    {
      forall k: nat | k < 32
        ensures SameBit(ws[w], vs[w], k)
      {
        WordBit(ws, w, k);
        WordBit(vs, w, k);
      }
      WordExtensionality(ws[w], vs[w]);
    }
  }
}
