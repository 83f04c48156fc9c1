/** The 64-bit words behind the packed bit vector (util/yet_another_bit_vector.cc).

    A word is a `bv64`; `Bit` says which of its positions are set. What the bit vector needs to
    know about masks, shifts and the two bit-trick fallbacks is proved here, position by position.

    C++ shifts a word by an `int`. The solver has no useful theory of a bit-vector shifted by an
    integer variable, so a shift by `k` is `k` one-bit shifts, which is what it means for every
    `0 <= k < 64`. The one-step operations have names so that proofs about `Bit` can treat them
    as opaque and leave the bit-level identities to small lemmas of their own. */
module Words {

  const ALL_BITS: bv64 := 0xffff_ffff_ffff_ffff

  predicate Odd(w: bv64) { w & 1 == 1 }
  function Half(w: bv64): bv64 { w >> 1 }
  function Double(w: bv64): bv64 { w << 1 }
  function And(x: bv64, y: bv64): bv64 { x & y }
  function Or(x: bv64, y: bv64): bv64 { x | y }
  function AndNot(x: bv64, y: bv64): bv64 { x & !y }

  // Whether position `i` of `w` is set (never for `i >= 64`, see BitBeyond).
  predicate Bit(w: bv64, i: nat) {
    if i == 0 then Odd(w) else Bit(Half(w), i - 1)
  }

  // w >> k
  function Shr(w: bv64, k: nat): bv64 {
    if k == 0 then w else Shr(Half(w), k - 1)
  }

  // w << k
  function Shl(w: bv64, k: nat): bv64 {
    if k == 0 then w else Double(Shl(w, k - 1))
  }

  // How many of the first `n` positions of `w` are set.
  function Population(w: bv64, n: nat): nat {
    if n == 0 then 0 else (if Odd(w) then 1 else 0) + Population(Half(w), n - 1)
  }

  function Decrement(w: bv64): bv64 { w - 1 }

  function MakeBitmask(begin: nat, count: nat): bv64 {
    if begin >= 64 then 0
    else
      var bitsInWrongPosition := if count >= 64 then ALL_BITS else Decrement(Shl(1, count));
      Shl(bitsInWrongPosition, begin)
  }

  // ---------- Boolean operations, position by position

  lemma HalfAnd(x: bv64, y: bv64)
    ensures Half(And(x, y)) == And(Half(x), Half(y))
  {}

  lemma OddAnd(x: bv64, y: bv64)
    ensures Odd(And(x, y)) <==> Odd(x) && Odd(y)
  {}

  lemma HalfOr(x: bv64, y: bv64)
    ensures Half(Or(x, y)) == Or(Half(x), Half(y))
  {}

  lemma OddOr(x: bv64, y: bv64)
    ensures Odd(Or(x, y)) <==> Odd(x) || Odd(y)
  {}

  lemma HalfAndNot(x: bv64, y: bv64)
    ensures Half(AndNot(x, y)) == AndNot(Half(x), Half(y))
  {}

  lemma OddAndNot(x: bv64, y: bv64)
    ensures Odd(AndNot(x, y)) <==> Odd(x) && !Odd(y)
  {}

  lemma {:induction false} BitAnd(x: bv64, y: bv64, i: nat)
    ensures Bit(And(x, y), i) <==> Bit(x, i) && Bit(y, i)
  {
    if i > 0 { HalfAnd(x, y); BitAnd(Half(x), Half(y), i - 1); } else { OddAnd(x, y); }
  }

  lemma {:induction false} BitOr(x: bv64, y: bv64, i: nat)
    ensures Bit(Or(x, y), i) <==> Bit(x, i) || Bit(y, i)
  {
    if i > 0 { HalfOr(x, y); BitOr(Half(x), Half(y), i - 1); } else { OddOr(x, y); }
  }

  lemma {:induction false} BitAndNot(x: bv64, y: bv64, i: nat)
    ensures Bit(AndNot(x, y), i) <==> Bit(x, i) && !Bit(y, i)
  {
    if i > 0 { HalfAndNot(x, y); BitAndNot(Half(x), Half(y), i - 1); } else { OddAndNot(x, y); }
  }

  lemma StepZero()
    ensures !Odd(0) && Half(0) == 0
  {}

  lemma {:induction false} BitZero(i: nat)
    ensures !Bit(0, i)
  {
    StepZero();
    if i > 0 { BitZero(i - 1); }
  }

  // ---------- Right shifts; beyond the word; the all-ones word

  function ShiftByte(w: bv64): bv64 { w >> 8 }

  lemma EightHalves(w: bv64)
    ensures Half(Half(Half(Half(Half(Half(Half(Half(w)))))))) == ShiftByte(w)
  {}

  lemma ShrByte(w: bv64)
    ensures Shr(w, 8) == ShiftByte(w)
  {
    var w1 := Half(w); var w2 := Half(w1); var w3 := Half(w2); var w4 := Half(w3);
    var w5 := Half(w4); var w6 := Half(w5); var w7 := Half(w6);
    calc {
      Shr(w, 8); Shr(w1, 7); Shr(w2, 6); Shr(w3, 5); Shr(w4, 4); Shr(w5, 3); Shr(w6, 2); Shr(w7, 1);
      { EightHalves(w); }
      ShiftByte(w);
    }
  }

  lemma {:induction false} BitShr(w: bv64, k: nat, i: nat)
    ensures Bit(Shr(w, k), i) <==> Bit(w, i + k)
  {
    if k > 0 { BitShr(Half(w), k - 1, i); }
  }

  lemma BitSkipByte(w: bv64, i: nat)
    ensures Bit(w, i + 8) <==> Bit(ShiftByte(w), i)
  {
    ShrByte(w);
    BitShr(w, 8, i);
  }

  lemma EightBytes(w: bv64)
    ensures ShiftByte(ShiftByte(ShiftByte(ShiftByte(
              ShiftByte(ShiftByte(ShiftByte(ShiftByte(w)))))))) == 0
  {}

  lemma BitBeyond(w: bv64, i: nat)
    requires i >= 64
    ensures !Bit(w, i)
  {
    var w1 := ShiftByte(w); var w2 := ShiftByte(w1); var w3 := ShiftByte(w2);
    var w4 := ShiftByte(w3); var w5 := ShiftByte(w4); var w6 := ShiftByte(w5); var w7 := ShiftByte(w6);
    BitSkipByte(w, i - 8);   BitSkipByte(w1, i - 16); BitSkipByte(w2, i - 24); BitSkipByte(w3, i - 32);
    BitSkipByte(w4, i - 40); BitSkipByte(w5, i - 48); BitSkipByte(w6, i - 56); BitSkipByte(w7, i - 64);
    EightBytes(w);
    BitZero(i - 64);
  }

  predicate LowByteOnes(w: bv64) { w & 0xff == 0xff }

  lemma EightOdds(w: bv64)
    requires LowByteOnes(w)
    ensures Odd(w) && Odd(Half(w)) && Odd(Half(Half(w))) && Odd(Half(Half(Half(w))))
    ensures var v := Half(Half(Half(Half(w))));
            Odd(v) && Odd(Half(v)) && Odd(Half(Half(v))) && Odd(Half(Half(Half(v))))
  {}

  lemma BitLowByteOnes(w: bv64, i: nat)
    requires LowByteOnes(w) && i < 8
    ensures Bit(w, i)
  {
    EightOdds(w);
    var w1 := Half(w); var w2 := Half(w1); var w3 := Half(w2); var w4 := Half(w3);
    var w5 := Half(w4); var w6 := Half(w5); var w7 := Half(w6);
    assert Bit(w7, 0) && Bit(w6, 0) && Bit(w5, 0) && Bit(w4, 0) && Bit(w3, 0) && Bit(w2, 0) && Bit(w1, 0);
    if i == 7 { assert Bit(w, 7) == Bit(w1, 6) == Bit(w2, 5) == Bit(w3, 4) == Bit(w4, 3) == Bit(w5, 2) == Bit(w6, 1); }
    else if i == 6 { assert Bit(w, 6) == Bit(w1, 5) == Bit(w2, 4) == Bit(w3, 3) == Bit(w4, 2) == Bit(w5, 1); }
    else if i == 5 { assert Bit(w, 5) == Bit(w1, 4) == Bit(w2, 3) == Bit(w3, 2) == Bit(w4, 1); }
    else if i == 4 { assert Bit(w, 4) == Bit(w1, 3) == Bit(w2, 2) == Bit(w3, 1); }
    else if i == 3 { assert Bit(w, 3) == Bit(w1, 2) == Bit(w2, 1); }
    else if i == 2 { assert Bit(w, 2) == Bit(w1, 1); }
  }

  // The all-ones word after `bytes` byte shifts.
  function OnesAfter(bytes: nat): bv64 {
    if bytes == 0 then ALL_BITS else ShiftByte(OnesAfter(bytes - 1))
  }

  lemma OnesAfterLow(bytes: nat)
    requires bytes < 8
    ensures LowByteOnes(OnesAfter(bytes))
  {
    assert OnesAfter(1) == 0xff_ffff_ffff_ffff;
    assert OnesAfter(2) == 0xffff_ffff_ffff;
    assert OnesAfter(3) == 0xff_ffff_ffff;
    assert OnesAfter(4) == 0xffff_ffff;
    assert OnesAfter(5) == 0xff_ffff;
    assert OnesAfter(6) == 0xffff;
    assert OnesAfter(7) == 0xff;
  }

  lemma {:induction false} BitOnesFrom(bytes: nat, i: nat)
    requires 8 * bytes + i < 64
    ensures Bit(OnesAfter(bytes), i)
    decreases i
  {
    if i < 8 {
      OnesAfterLow(bytes);
      BitLowByteOnes(OnesAfter(bytes), i);
    } else {
      BitOnesFrom(bytes + 1, i - 8);
      BitSkipByte(OnesAfter(bytes), i - 8);
    }
  }

  lemma BitOnes(i: nat)
    requires i < 64
    ensures Bit(ALL_BITS, i)
  {
    BitOnesFrom(0, i);
  }

  // ---------- Left shifts and masks

  lemma StepDouble(w: bv64)
    ensures Half(Double(w)) == And(w, Half(ALL_BITS)) && !Odd(Double(w))
  {}

  lemma BitDouble(w: bv64, i: nat)
    requires i < 64
    ensures Bit(Double(w), i) <==> i > 0 && Bit(w, i - 1)
  {
    StepDouble(w);
    if i > 0 {
      BitAnd(w, Half(ALL_BITS), i - 1);
      BitOnes(i);
    }
  }

  lemma {:induction false} BitShl(w: bv64, k: nat, i: nat)
    requires i < 64
    ensures Bit(Shl(w, k), i) <==> i >= k && Bit(w, i - k)
  {
    if k > 0 {
      BitDouble(Shl(w, k - 1), i);
      if i > 0 { BitShl(w, k - 1, i - 1); }
    }
  }

  lemma StepDecrement(w: bv64)
    ensures Decrement(Double(w)) == Or(Double(Decrement(w)), 1)
  {}

  lemma BitOfOne(i: nat)
    ensures Bit(1, i) <==> i == 0
  {
    assert Odd(1) && Half(1) == 0;
    if i > 0 { BitZero(i - 1); }
  }

  lemma {:induction false} BitLowMask(count: nat, i: nat)
    requires i < 64
    ensures Bit(Decrement(Shl(1, count)), i) <==> i < count
  {
    if count == 0 {
      assert Decrement(1) == 0;
      BitZero(i);
    } else {
      var half := Shl(1, count - 1);
      StepDecrement(half);
      BitOr(Double(Decrement(half)), 1, i);
      BitDouble(Decrement(half), i);
      BitOfOne(i);
      if i > 0 { BitLowMask(count - 1, i - 1); }
    }
  }

  // The mask of [begin, begin + count), cut off at the word's end.
  lemma BitMakeBitmask(begin: nat, count: nat, i: nat)
    requires i < 64
    ensures Bit(MakeBitmask(begin, count), i) <==> begin <= i < begin + count
  {
    if begin >= 64 {
      BitZero(i);
    } else {
      var mask := if count >= 64 then ALL_BITS else Decrement(Shl(1, count));
      BitShl(mask, begin, i);
      if i >= begin {
        if count >= 64 { BitOnes(i - begin); } else { BitLowMask(count, i - begin); }
      }
    }
  }

  // The one-position mask 1 << pos.
  lemma BitSingle(pos: nat, i: nat)
    requires i < 64
    ensures Bit(Shl(1, pos), i) <==> i == pos
  {
    BitShl(1, pos, i);
    if i >= pos { BitOfOne(i - pos); }
  }

  // ---------- Count trailing zeros, by halving masks

  function Isolate(w: bv64): bv64 { w & (!w + 1) }

  function CountTrailingZeros(w: bv64): int {
    LowestBitIndex(Isolate(w))
  }

  function LowestBitIndex(b: bv64): int {
    64 - (if b != 0 then 1 else 0)
    - (if b & 0x0000_0000_ffff_ffff != 0 then 32 else 0)
    - (if b & 0x0000_ffff_0000_ffff != 0 then 16 else 0)
    - (if b & 0x00ff_00ff_00ff_00ff != 0 then 8 else 0)
    - (if b & 0x0f0f_0f0f_0f0f_0f0f != 0 then 4 else 0)
    - (if b & 0x3333_3333_3333_3333 != 0 then 2 else 0)
    - (if b & 0x5555_5555_5555_5555 != 0 then 1 else 0)
  }

  predicate SingleBit(b: bv64) { b != 0 && b & (b - 1) == 0 }

  lemma LowestBitIndexOfDouble(b: bv64)
    requires SingleBit(b) && Double(b) != 0
    ensures LowestBitIndex(Double(b)) == LowestBitIndex(b) + 1
  {}

  lemma IsolateEven(w: bv64)
    requires !Odd(w)
    ensures Isolate(w) == Double(Isolate(Half(w)))
  {}

  lemma IsolateSingle(w: bv64)
    requires w != 0
    ensures SingleBit(Isolate(w))
  {}

  lemma RawIsolateOdd(w: bv64)
    requires w & 1 == 1
    ensures w & (!w + 1) == 1
  {}

  lemma IsolateOdd(w: bv64)
    requires Odd(w)
    ensures Isolate(w) == 1
  {
    RawIsolateOdd(w);
  }

  lemma HalfSmaller(w: bv64)
    requires w != 0 && !Odd(w)
    ensures Half(w) < w && Half(w) != 0
  {}

  lemma IsolateZero()
    ensures Isolate(0) == 0
  {}

  // The least set position of a word, or 64 if it has none.
  lemma CountTrailingZerosIsLeast(w: bv64)
    ensures w == 0 ==> CountTrailingZeros(w) == 64
    ensures w != 0 ==> 0 <= CountTrailingZeros(w) < 64 && Bit(w, CountTrailingZeros(w))
    ensures forall i: nat :: i < CountTrailingZeros(w) ==> !Bit(w, i)
  {
    if w == 0 {
      IsolateZero();
      assert LowestBitIndex(0) == 64;
      forall i: nat ensures !Bit(w, i) { BitZero(i); }
    } else {
      LowestSetBit(w);
    }
  }

  lemma {:induction false} LowestSetBit(w: bv64)
    requires w != 0
    ensures 0 <= CountTrailingZeros(w) < 64
    ensures Bit(w, CountTrailingZeros(w))
    ensures forall i: nat :: i < CountTrailingZeros(w) ==> !Bit(w, i)
    decreases w
  {
    if Odd(w) {
      IsolateOdd(w);
      assert LowestBitIndex(1) == 0;
    } else {
      var v := Half(w);
      HalfSmaller(w);
      LowestSetBit(v);
      IsolateEven(w);
      IsolateSingle(v);
      IsolateSingle(w);
      LowestBitIndexOfDouble(Isolate(v));
      var r := CountTrailingZeros(w);
      if r >= 64 { BitBeyond(w, r); }
      forall i: nat | i < r ensures !Bit(w, i) {
        if i > 0 { assert !Bit(v, i - 1); }
      }
    }
  }

  // ---------- Population count, by parallel sums

  function Pairs(w: bv64): bv64 { w - ((w >> 1) & (ALL_BITS / 3)) }
  function Nibbles(w: bv64): bv64 { (w & (ALL_BITS / 15 * 3)) + ((w >> 2) & (ALL_BITS / 15 * 3)) }
  function Bytes(w: bv64): bv64 { (w + (w >> 4)) & (ALL_BITS / 255 * 15) }

  // The closing multiplication and shift, as unsigned arithmetic modulo 2^64.
  function PopCount(w: bv64): int {
    var sums := Number(Bytes(Nibbles(Pairs(w))), 64);
    sums * 0x0101_0101_0101_0101 % 0x1_0000_0000_0000_0000 / 0x100_0000_0000_0000
  }

  // The three stages act on each byte by itself: shifting the word shifts the sums.
  lemma RawSplit(w: bv64)
    ensures w == (w & 0x5555_5555_5555_5555) + (w & 0xaaaa_aaaa_aaaa_aaaa)
  {}

  lemma RawOddHalf(w: bv64)
    ensures w & 0xaaaa_aaaa_aaaa_aaaa
         == ((w >> 1) & 0x5555_5555_5555_5555) + ((w >> 1) & 0x5555_5555_5555_5555)
  {}

  lemma RawNoBorrow(w: bv64)
    ensures w - ((w >> 1) & 0x5555_5555_5555_5555)
         == (w & 0x5555_5555_5555_5555) + ((w >> 1) & 0x5555_5555_5555_5555)
  {
    RawSplit(w);
    RawOddHalf(w);
  }

  lemma PairsWithoutBorrow(w: bv64)
    ensures Pairs(w) == (w & 0x5555_5555_5555_5555) + ((w >> 1) & 0x5555_5555_5555_5555)
  {
    RawNoBorrow(w);
  }

  lemma RawPairsShift(w: bv64)
    ensures ((w & 0x5555_5555_5555_5555) + ((w >> 1) & 0x5555_5555_5555_5555)) >> 8
         == ((w >> 8) & 0x5555_5555_5555_5555) + (((w >> 8) >> 1) & 0x5555_5555_5555_5555)
  {}

  lemma PairsShift(w: bv64)
    ensures ShiftByte(Pairs(w)) == Pairs(ShiftByte(w))
  {
    PairsWithoutBorrow(w);
    PairsWithoutBorrow(ShiftByte(w));
    RawPairsShift(w);
  }

  predicate SmallNibbles(w: bv64) { w & 0x8888_8888_8888_8888 == 0 }

  lemma NibblesShift(w: bv64)
    ensures ShiftByte(Nibbles(w)) == Nibbles(ShiftByte(w)) && SmallNibbles(Nibbles(w))
  {}

  lemma BytesShift(w: bv64)
    requires SmallNibbles(w)
    ensures ShiftByte(Bytes(w)) == Bytes(ShiftByte(w))
  {}

  function ByteSums(w: bv64): bv64 { Bytes(Nibbles(Pairs(w))) }

  lemma ByteSumsShift(w: bv64)
    ensures ShiftByte(ByteSums(w)) == ByteSums(ShiftByte(w))
  {
    PairsShift(w);
    NibblesShift(Pairs(w));
    BytesShift(Nibbles(Pairs(w)));
  }

  // ---------- From bit-vector sums to integer sums

  function Plus(a: bv64, b: bv64): bv64 { a + b }
  function Value(a: bv64): int { a as int }

  lemma RawSmall(a: bv64)
    requires a as int <= 4
    ensures a <= 4
  {}

  lemma RawAdd(a: bv64, b: bv64)
    requires a <= 4 && b <= 4
    ensures (a + b) as int == a as int + b as int
  {}

  lemma AddSmall(a: bv64, b: bv64)
    requires Value(a) <= 4 && Value(b) <= 4
    ensures Value(Plus(a, b)) == Value(a) + Value(b)
  {
    RawSmall(a);
    RawSmall(b);
    RawAdd(a, b);
  }

  // ---------- Each stage, in the lowest field of the word

  function Low1(w: bv64): bv64 { w & 1 }
  function Low2(w: bv64): bv64 { w & 3 }
  function Low4(w: bv64): bv64 { w & 15 }
  function Low8(w: bv64): bv64 { w & 0xff }
  function ShiftTwo(w: bv64): bv64 { w >> 2 }
  function ShiftFour(w: bv64): bv64 { w >> 4 }

  lemma LowPair(w: bv64)
    ensures Low2(Pairs(w)) == Plus(Low1(w), Low1(Half(w)))
  {}

  lemma NextPair(w: bv64)
    ensures Low2(ShiftTwo(Pairs(w))) == Low2(Pairs(ShiftTwo(w)))
  {}

  lemma LowNibble(p: bv64)
    ensures Low4(Nibbles(p)) == Plus(Low2(p), Low2(ShiftTwo(p)))
  {}

  lemma NextNibble(w: bv64)
    ensures Low4(ShiftFour(Nibbles(Pairs(w)))) == Low4(Nibbles(Pairs(ShiftFour(w))))
  {}

  lemma LowByte(n: bv64)
    requires SmallNibbles(n)
    ensures Low8(Bytes(n)) == Plus(Low4(n), Low4(ShiftFour(n)))
  {}

  lemma {:induction false} PopulationSplit(w: bv64, j: nat, n: nat)
    ensures Population(w, j + n) == Population(w, j) + Population(Shr(w, j), n)
  {
    if j > 0 { PopulationSplit(Half(w), j - 1, n); }
  }

  lemma PairCount(w: bv64)
    ensures Value(Low2(Pairs(w))) == Population(w, 2) <= 2
  {
    LowPair(w);
    Low1Value(w);
    Low1Value(Half(w));
    AddSmall(Low1(w), Low1(Half(w)));
    assert Population(Half(w), 1) == Value(Low1(Half(w))) + Population(Half(Half(w)), 0);
    assert Population(w, 2) == Value(Low1(w)) + Population(Half(w), 1);
  }

  lemma Low1Value(w: bv64)
    ensures Value(Low1(w)) == if Odd(w) then 1 else 0
  {}

  lemma TwoHalves(w: bv64)
    ensures Half(Half(w)) == ShiftTwo(w) && ShiftTwo(ShiftTwo(w)) == ShiftFour(w)
  {}

  lemma ShrTwo(w: bv64)
    ensures Shr(w, 2) == ShiftTwo(w)
  {
    TwoHalves(w);
    assert Shr(w, 2) == Shr(Half(w), 1) == Shr(Half(Half(w)), 0);
  }

  lemma ShrFour(w: bv64)
    ensures Shr(w, 4) == ShiftFour(w)
  {
    var v := Half(Half(w));
    TwoHalves(w);
    ShrTwo(v);
    assert Shr(w, 4) == Shr(Half(w), 3) == Shr(v, 2);
  }

  lemma NibbleCount(w: bv64)
    ensures Value(Low4(Nibbles(Pairs(w)))) == Population(w, 4) <= 4
  {
    LowNibble(Pairs(w));
    NextPair(w);
    PairCount(w);
    PairCount(ShiftTwo(w));
    AddSmall(Low2(Pairs(w)), Low2(Pairs(ShiftTwo(w))));
    ShrTwo(w);
    PopulationSplit(w, 2, 2);
  }

  lemma ByteCount(w: bv64)
    ensures Value(Low8(ByteSums(w))) == Population(w, 8) <= 8
  {
    NibblesShift(Pairs(w));
    LowByte(Nibbles(Pairs(w)));
    NextNibble(w);
    NibbleCount(w);
    NibbleCount(ShiftFour(w));
    AddSmall(Low4(Nibbles(Pairs(w))), Low4(Nibbles(Pairs(ShiftFour(w)))));
    ShrFour(w);
    PopulationSplit(w, 4, 4);
  }

  // ---------- Multiplying by 0x0101... adds all eight bytes into the top one

  // The unsigned integer that the low `n` positions of `w` stand for.
  function Number(w: bv64, n: nat): nat {
    if n == 0 then 0 else (if Odd(w) then 1 else 0) + 2 * Number(Half(w), n - 1)
  }

  lemma NumberSkipByte(w: bv64, n: nat)
    ensures Number(w, 8 + n) == Number(w, 8) + 256 * Number(ShiftByte(w), n)
  {
    var w1 := Half(w); var w2 := Half(w1); var w3 := Half(w2); var w4 := Half(w3);
    var w5 := Half(w4); var w6 := Half(w5); var w7 := Half(w6); var w8 := Half(w7);
    EightHalves(w);
    var rest := Number(w8, n);
    assert Number(w8, 0) == 0;
    assert Number(w7, 1 + n) == Number(w7, 1) + 2 * rest;
    assert Number(w6, 2 + n) == Number(w6, 2) + 4 * rest;
    assert Number(w5, 3 + n) == Number(w5, 3) + 8 * rest;
    assert Number(w4, 4 + n) == Number(w4, 4) + 16 * rest;
    assert Number(w3, 5 + n) == Number(w3, 5) + 32 * rest;
    assert Number(w2, 6 + n) == Number(w2, 6) + 64 * rest;
    assert Number(w1, 7 + n) == Number(w1, 7) + 128 * rest;
  }

  lemma SmallByteValue(w: bv64)
    requires w & 0xf0 == 0
    ensures Value(Low8(w)) == (if Odd(w) then 1 else 0) + (if Odd(Half(w)) then 2 else 0)
                            + (if Odd(Half(Half(w))) then 4 else 0) + (if Odd(Half(Half(Half(w)))) then 8 else 0)
    ensures var v := Half(Half(Half(Half(w))));
            !Odd(v) && !Odd(Half(v)) && !Odd(Half(Half(v))) && !Odd(Half(Half(Half(v))))
  {}

  lemma SmallByteNumber(w: bv64)
    requires w & 0xf0 == 0
    ensures Number(w, 8) == Value(Low8(w))
  {
    var w1 := Half(w); var w2 := Half(w1); var w3 := Half(w2); var w4 := Half(w3);
    var w5 := Half(w4); var w6 := Half(w5); var w7 := Half(w6); var w8 := Half(w7);
    SmallByteValue(w);
    assert Number(w8, 0) == 0 && Number(w7, 1) == 0 && Number(w6, 2) == 0 && Number(w5, 3) == 0;
    assert Number(w4, 4) == 0;
    assert Number(w3, 5) == if Odd(w3) then 1 else 0;
    assert Number(w2, 6) == (if Odd(w2) then 1 else 0) + 2 * Number(w3, 5);
    assert Number(w1, 7) == (if Odd(w1) then 1 else 0) + 2 * Number(w2, 6);
  }

  lemma BytesAreSmall(n: bv64)
    ensures Bytes(n) & 0xf0 == 0
  {}

  // The sums' own number, byte by byte, is the count of each byte of the word.
  lemma ByteSumsNumber(w: bv64, n: nat)
    ensures Number(ByteSums(w), 8 + n) == Population(w, 8) + 256 * Number(ByteSums(ShiftByte(w)), n)
    ensures Population(w, 8 + n) == Population(w, 8) + Population(ShiftByte(w), n)
    ensures Population(w, 8) <= 8
  {
    NumberSkipByte(ByteSums(w), n);
    BytesAreSmall(Nibbles(Pairs(w)));
    SmallByteNumber(ByteSums(w));
    ByteCount(w);
    ByteSumsShift(w);
    PopulationSplit(w, 8, n);
    ShrByte(w);
  }

  function FromBytes(b0: int, b1: int, b2: int, b3: int, b4: int, b5: int, b6: int, b7: int): int {
    b0 + 0x100 * b1 + 0x1_0000 * b2 + 0x100_0000 * b3 + 0x1_0000_0000 * b4
    + 0x100_0000_0000 * b5 + 0x1_0000_0000_0000 * b6 + 0x100_0000_0000_0000 * b7
  }

  lemma ProductOfBytes(b0: int, b1: int, b2: int, b3: int, b4: int, b5: int, b6: int, b7: int)
    returns (high: int, low: int)
    requires 0 <= b0 <= 8 && 0 <= b1 <= 8 && 0 <= b2 <= 8 && 0 <= b3 <= 8
    requires 0 <= b4 <= 8 && 0 <= b5 <= 8 && 0 <= b6 <= 8 && 0 <= b7 <= 8
    ensures 0 <= low < 0x100_0000_0000_0000
    ensures FromBytes(b0, b1, b2, b3, b4, b5, b6, b7) * 0x0101_0101_0101_0101
         == high * 0x1_0000_0000_0000_0000
          + (b0 + b1 + b2 + b3 + b4 + b5 + b6 + b7) * 0x100_0000_0000_0000 + low
  {
    var s1 := b0 + b1; var s2 := s1 + b2; var s3 := s2 + b3;
    var s4 := s3 + b4; var s5 := s4 + b5; var s6 := s5 + b6;
    low := FromBytes(b0, s1, s2, s3, s4, s5, s6, 0);
    var t2 := b7 + b6; var t3 := t2 + b5; var t4 := t3 + b4;
    var t5 := t4 + b3; var t6 := t5 + b2; var t7 := t6 + b1;
    high := FromBytes(t7, t6, t5, t4, t3, t2, b7, 0);
  }

  lemma TopByte(high: int, top: int, low: int, n: int)
    requires 0 <= low < 0x100_0000_0000_0000 && 0 <= top < 256
    requires n == high * 0x1_0000_0000_0000_0000 + top * 0x100_0000_0000_0000 + low
    ensures n % 0x1_0000_0000_0000_0000 / 0x100_0000_0000_0000 == top
  {
    var r := top * 0x100_0000_0000_0000 + low;
    assert n % 0x1_0000_0000_0000_0000 == r;
  }

  lemma FourByteCounts(w: bv64, n: nat) returns (b0: int, b1: int, b2: int, b3: int, rest: bv64)
    ensures 0 <= b0 <= 8 && 0 <= b1 <= 8 && 0 <= b2 <= 8 && 0 <= b3 <= 8
    ensures Population(w, 32 + n) == b0 + b1 + b2 + b3 + Population(rest, n)
    ensures Number(ByteSums(w), 32 + n)
         == b0 + 0x100 * b1 + 0x1_0000 * b2 + 0x100_0000 * b3 + 0x1_0000_0000 * Number(ByteSums(rest), n)
  {
    var w1 := ShiftByte(w); var w2 := ShiftByte(w1); var w3 := ShiftByte(w2);
    ByteSumsNumber(w, 24 + n); ByteSumsNumber(w1, 16 + n); ByteSumsNumber(w2, 8 + n); ByteSumsNumber(w3, n);
    b0, b1, b2, b3 := Population(w, 8), Population(w1, 8), Population(w2, 8), Population(w3, 8);
    rest := ShiftByte(w3);
  }

  // The portable population count is right for every word.
  lemma PopCountIsPopulation(w: bv64)
    ensures PopCount(w) == Population(w, 64)
  {
    var b0, b1, b2, b3, v := FourByteCounts(w, 32);
    var b4, b5, b6, b7, u := FourByteCounts(v, 0);
    var high, low := ProductOfBytes(b0, b1, b2, b3, b4, b5, b6, b7);
    var n := Number(ByteSums(w), 64);
    assert n == FromBytes(b0, b1, b2, b3, b4, b5, b6, b7);
    TopByte(high, Population(w, 64), low, n * 0x0101_0101_0101_0101);
  }
}
