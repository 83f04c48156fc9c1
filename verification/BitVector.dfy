/** The packed bit vector of util/yet_another_bit_vector.cc: one inline word for sizes up to 64, an
    array of words above that. Every operation is specified on the plain `seq<bool>` it stands for. */
module BitVectors {
  import opened Words
  import opened Rows

  // ---------- One word as a row

  function Unpack(w: bv64): (row: seq<bool>)
    ensures |row| == 64
  {
    seq(64, i requires 0 <= i < 64 => Bit(w, i))
  }

  ghost function UnpackAll(words: seq<bv64>): (rows: seq<seq<bool>>)
    ensures |rows| == |words| && AreRows(rows)
  {
    seq(|words|, k requires 0 <= k < |words| => Unpack(words[k]))
  }

  lemma UnpackUpdate(words: seq<bv64>, k: nat, w: bv64)
    requires k < |words|
    ensures UnpackAll(words[k := w]) == UnpackAll(words)[k := Unpack(w)]
  {}

  lemma UnpackZero()
    ensures Unpack(0) == Falses(64)
  {
    forall i | 0 <= i < 64 ensures !Bit(0, i) { BitZero(i); }
  }

  lemma UnpackOnes()
    ensures Unpack(ALL_BITS) == Trues(64)
  {
    forall i | 0 <= i < 64 ensures Bit(ALL_BITS, i) { BitOnes(i); }
  }

  lemma UnpackMask(count: nat)
    requires count <= 64
    ensures Unpack(MakeBitmask(0, count)) == Trues(count) + Falses(64 - count)
  {
    forall i | 0 <= i < 64 ensures Bit(MakeBitmask(0, count), i) == (i < count) { BitMakeBitmask(0, count, i); }
  }

  lemma SetInWord(w: bv64, pos: nat)
    requires pos < 64
    ensures Unpack(Or(w, Shl(1, pos))) == Unpack(w)[pos := true]
  {
    forall i | 0 <= i < 64 ensures Bit(Or(w, Shl(1, pos)), i) == (i == pos || Bit(w, i)) {
      BitSingle(pos, i);
      BitOr(w, Shl(1, pos), i);
    }
  }

  lemma ClearInWord(w: bv64, pos: nat)
    requires pos < 64
    ensures Unpack(AndNot(w, Shl(1, pos))) == Unpack(w)[pos := false]
  {
    forall i | 0 <= i < 64 ensures Bit(AndNot(w, Shl(1, pos)), i) == (i != pos && Bit(w, i)) {
      BitSingle(pos, i);
      BitAndNot(w, Shl(1, pos), i);
    }
  }

  lemma NonZeroHasBit(w: bv64)
    requires w != 0
    ensures var z := CountTrailingZeros(w);
            0 <= z < 64 && Unpack(w)[z] && forall b :: 0 <= b < z ==> !Unpack(w)[b]
  {
    CountTrailingZerosIsLeast(w);
  }

  lemma HasBitNonZero(w: bv64, i: nat)
    requires Bit(w, i)
    ensures w != 0
  {
    BitZero(i);
  }

  // The test of IsSet.
  lemma TestInWord(w: bv64, pos: nat)
    requires pos < 64
    ensures And(w, Shl(1, pos)) != 0 <==> Unpack(w)[pos]
  {
    var masked := And(w, Shl(1, pos));
    BitAnd(w, Shl(1, pos), pos);
    BitSingle(pos, pos);
    if Bit(w, pos) {
      HasBitNonZero(masked, pos);
    } else if masked != 0 {
      CountTrailingZerosIsLeast(masked);
      var i := CountTrailingZeros(masked);
      BitAnd(w, Shl(1, pos), i);
      BitSingle(pos, i);
    }
  }

  // ---------- Counting in one word

  lemma {:induction false} PopulationIsCount(w: bv64, n: nat)
    ensures Population(w, n) == CountTrue(seq(n, i requires 0 <= i < n => Bit(w, i)))
  {
    if n > 0 {
      var bits := seq(n, i requires 0 <= i < n => Bit(w, i));
      assert bits[1..] == seq(n - 1, i requires 0 <= i < n - 1 => Bit(Half(w), i));
      PopulationIsCount(Half(w), n - 1);
    }
  }

  method CountWord(w: bv64, ghost row: seq<bool>) returns (n: nat)
    requires row == Unpack(w)
    ensures n == CountTrue(row)
  {
    PopCountIsPopulation(w);
    PopulationIsCount(w, 64);
    n := PopCount(w);
  }

  lemma UnpackMasked(w: bv64, lo: nat, count: nat, hi: nat)
    requires lo <= hi <= 64 && hi == if lo + count <= 64 then lo + count else 64
    ensures Unpack(And(w, MakeBitmask(lo, count))) == Falses(lo) + Unpack(w)[lo..hi] + Falses(64 - hi)
  {
    forall i | 0 <= i < 64 ensures Bit(And(w, MakeBitmask(lo, count)), i) == (lo <= i < hi && Bit(w, i)) {
      BitAnd(w, MakeBitmask(lo, count), i);
      BitMakeBitmask(lo, count, i);
    }
  }

  lemma CountBetweenFalses(lo: nat, middle: seq<bool>, rest: nat)
    ensures CountTrue(Falses(lo) + middle + Falses(rest)) == CountTrue(middle)
  {
    CountConcat(Falses(lo) + middle, Falses(rest));
    CountConcat(Falses(lo), middle);
    CountFalses(lo);
    CountFalses(rest);
  }

  // The population of a word under MakeBitmask(lo, count).
  method CountRange(w: bv64, lo: nat, count: nat, ghost row: seq<bool>) returns (n: nat)
    requires lo <= 64 && row == Unpack(w)
    ensures n == CountTrue(row[lo..if lo + count <= 64 then lo + count else 64])
  {
    ghost var hi := if lo + count <= 64 then lo + count else 64;
    UnpackMasked(w, lo, count, hi);
    CountBetweenFalses(lo, row[lo..hi], 64 - hi);
    n := CountWord(And(w, MakeBitmask(lo, count)), Falses(lo) + row[lo..hi] + Falses(64 - hi));
  }

  // ---------- Shifting one word

  lemma ShiftInWord(w: bv64, steps: nat)
    requires steps <= 64
    ensures Unpack(if steps < 64 then Shr(w, steps) else 0) == ShiftedRight(Unpack(w), steps)
  {
    ShiftedAt(Unpack(w), steps);
    if steps < 64 {
      forall i | 0 <= i < 64 ensures Bit(Shr(w, steps), i) == (i + steps < 64 && Bit(w, i + steps)) {
        BitShr(w, steps, i);
        if i + steps >= 64 { BitBeyond(w, i + steps); }
      }
    } else {
      UnpackZero();
    }
  }

  lemma CarriedBit(w: bv64, carry: bv64, steps: nat, i: nat)
    requires 0 < steps < 64 && i < 64
    ensures Bit(Or(Shr(w, steps), Shl(carry, 64 - steps)), i)
         == if i + steps < 64 then Bit(w, i + steps) else Bit(carry, i + steps - 64)
  {
    BitOr(Shr(w, steps), Shl(carry, 64 - steps), i);
    BitShr(w, steps, i);
    BitShl(carry, 64 - steps, i);
    if i + steps >= 64 { BitBeyond(w, i + steps); }
  }

  lemma CarriedWord(w: bv64, carry: bv64, next: seq<bool>, steps: nat)
    requires 0 < steps < 64 && |next| == 64 && Unpack(carry)[..steps] == next[..steps]
    ensures Unpack(Or(Shr(w, steps), Shl(carry, 64 - steps))) == CarriedRow(Unpack(w), next, steps)
  {
    var after := Or(Shr(w, steps), Shl(carry, 64 - steps));
    var row := CarriedRow(Unpack(w), next, steps);
    forall i | 0 <= i < 64 ensures Unpack(after)[i] == row[i] {
      CarriedBit(w, carry, steps, i);
      if i + steps >= 64 {
        assert Unpack(carry)[..steps][i + steps - 64] == next[..steps][i + steps - 64];
      }
    }
  }

  // One word of the carry loop: the low part comes from this word, the high part from the next.
  method CarryIntoWord(w: bv64, steps: nat, incomingCarryBits: bv64, ghost row: seq<bool>, ghost next: seq<bool>)
    returns (after: bv64, outgoingCarryBits: bv64)
    requires 0 < steps < 64 && row == Unpack(w)
    requires |next| == 64 && Unpack(incomingCarryBits)[..steps] == next[..steps]
    ensures Unpack(after) == CarriedRow(row, next, steps)
    ensures Unpack(outgoingCarryBits)[..steps] == row[..steps]
  {
    outgoingCarryBits := And(w, MakeBitmask(0, steps));
    UnpackMasked(w, 0, steps, steps);
    CarriedWord(w, incomingCarryBits, next, steps);
    after := Shr(w, steps);
    after := Or(after, Shl(incomingCarryBits, 64 - steps));
  }

  // C++ integer division, which rounds toward zero.
  function Quotient(a: int, b: int): int
    requires b > 0
  {
    if a >= 0 then a / b else -((-a) / b)
  }

  // ---------- The loops over array storage

  function Zeros(n: nat): (words: seq<bv64>)
    ensures |words| == n
  {
    seq(n, _ => 0)
  }

  lemma UnpackMoved(words: seq<bv64>, q: nat)
    requires q <= |words|
    ensures UnpackAll(words[q..] + Zeros(q)) == UnpackAll(words)[q..] + ClearRows(q)
  {
    UnpackZero();
    var moved, rows := words[q..] + Zeros(q), UnpackAll(words)[q..] + ClearRows(q);
    forall k | 0 <= k < |words| ensures Unpack(moved[k]) == rows[k] {}
  }

  method ShiftWords(a: array<bv64>, q: nat)
    requires q <= a.Length
    modifies a
    ensures a[..] == old(a[..])[q..] + Zeros(q)
  {
    ghost var words := a[..];
    var n := a.Length;
    for i := q to n
      invariant a[..i - q] == words[q..i] && a[i - q..] == words[i - q..]
    {
      a[i - q] := a[i];
    }
    for i := n - q to n
      invariant a[..n - q] == words[q..]
      invariant forall k :: n - q <= k < i ==> a[k] == 0
    {
      a[i] := 0;
    }
  }

  method ShiftWithCarry(a: array<bv64>, steps: nat)
    requires 0 < steps < 64
    modifies a
    ensures AreCarried(UnpackAll(old(a[..])), UnpackAll(a[..]), steps)
  {
    ghost var rows := UnpackAll(a[..]);
    ghost var current := rows;
    var n := a.Length;
    var incomingCarryBits: bv64 := 0;
    UnpackZero();
    for i := n downto 0
      invariant current == UnpackAll(a[..])
      invariant current[..i] == rows[..i]
      invariant Unpack(incomingCarryBits)[..steps] == RowOrClear(rows, i)[..steps]
      invariant forall k: nat {:trigger current[k]} :: i <= k < n ==>
        current[k] == CarriedRow(rows[k], RowOrClear(rows, k + 1), steps)
    {
      assert current[i] == rows[i] by { assert current[..i + 1][i] == rows[..i + 1][i]; }
      var after, outgoingCarryBits :=
        CarryIntoWord(a[i], steps, incomingCarryBits, rows[i], RowOrClear(rows, i + 1));
      UnpackUpdate(a[..], i, after);
      a[i] := after;
      current := current[i := CarriedRow(rows[i], RowOrClear(rows, i + 1), steps)];
      incomingCarryBits := outgoingCarryBits;
    }
  }

  // First whole words, then the bits within words.
  method ShiftArray(a: array<bv64>, steps: nat, ghost all: seq<bool>, ghost rows: seq<seq<bool>>)
    returns (ghost shifted: seq<bool>, ghost rows': seq<seq<bool>>)
    requires a.Length > 0 && steps <= 64 * a.Length && rows == UnpackAll(a[..]) && Tiles(all, rows)
    modifies a
    ensures rows' == UnpackAll(a[..]) && Tiles(shifted, rows') && shifted == ShiftedRight(all, steps)
  {
    var remaining;
    remaining, shifted, rows' := ShiftArrayByWords(a, steps, all, rows);
    shifted, rows' := ShiftArrayByBits(a, remaining, shifted, rows');
    ShiftTwice(all, 64 * (steps / 64), remaining);
    assert 64 * (steps / 64) + remaining == steps;
  }

  method ShiftArrayByWords(a: array<bv64>, steps: nat, ghost all: seq<bool>, ghost rows: seq<seq<bool>>)
    returns (remaining: nat, ghost moved: seq<bool>, ghost rows': seq<seq<bool>>)
    requires steps <= 64 * a.Length && rows == UnpackAll(a[..]) && Tiles(all, rows)
    modifies a
    ensures rows' == UnpackAll(a[..]) && Tiles(moved, rows')
    ensures moved == ShiftedRight(all, 64 * (steps / 64)) && remaining == steps % 64
  {
    remaining, moved, rows' := steps, all, rows;
    if steps >= 64 {
      var q := steps / 64;
      MovedTiles(all, rows, q);
      UnpackMoved(a[..], q);
      ShiftWords(a, q);
      moved, rows' := ShiftedRight(all, 64 * q), rows[q..] + ClearRows(q);
      remaining := steps % 64;
    } else {
      ShiftByNothing(all);
    }
  }

  method ShiftArrayByBits(a: array<bv64>, steps: nat, ghost all: seq<bool>, ghost rows: seq<seq<bool>>)
    returns (ghost shifted: seq<bool>, ghost rows': seq<seq<bool>>)
    requires steps < 64 && a.Length > 0 && rows == UnpackAll(a[..]) && Tiles(all, rows)
    modifies a
    ensures rows' == UnpackAll(a[..]) && Tiles(shifted, rows') && shifted == ShiftedRight(all, steps)
  {
    if steps > 0 {
      ShiftWithCarry(a, steps);
      shifted, rows' := ShiftedRight(all, steps), UnpackAll(a[..]);
      CarriedTiles(all, rows, rows', steps);
    } else {
      shifted, rows' := all, rows;
      ShiftByNothing(all);
    }
  }

  method FindFirstInArray(a: array<bv64>, size: nat, ghost all: seq<bool>) returns (r: nat)
    requires size <= 64 * a.Length && Tiles(all, UnpackAll(a[..])) && CleanPast(all, size)
    ensures r <= size && (r < size ==> all[r])
    ensures forall i :: 0 <= i < r ==> !all[i]
  {
    ghost var rows := UnpackAll(a[..]);
    for i := 0 to a.Length
      invariant forall k :: 0 <= k < i ==> rows[k] == Falses(64)
    {
      assert rows[i] == Unpack(a[i]);
      if a[i] != 0 {
        NonZeroHasBit(a[i]);
        FirstInRows(all, rows, i, CountTrailingZeros(a[i]));
        r := i * 64 + CountTrailingZeros(a[i]);
        return;
      }
      UnpackZero();
    }
    r := size;
    AllRowsClear(all, rows);
  }

  // Where [begin, end) lies, by its first and last words. An empty range may end before it begins.
  lemma RangeOfWords(begin: nat, end: nat)
    requires begin <= end
    ensures var first, last := begin / 64, Quotient(end - 1, 64);
            && 0 <= last && (first > last ==> begin == end)
            && (first <= last ==> 64 * last <= end <= 64 * (last + 1))
            && begin == 64 * first + begin % 64
  {}

  // The three-way split of CountBitsSet over array storage.
  method CountInArray(a: array<bv64>, begin: nat, end: nat, ghost all: seq<bool>) returns (count: nat)
    requires begin <= end <= 64 * a.Length && a.Length > 0 && Tiles(all, UnpackAll(a[..]))
    ensures count == CountTrue(all[begin..end])
  {
    ghost var rows := UnpackAll(a[..]);
    var first := begin / 64;
    var last := Quotient(end - 1, 64);
    RangeOfWords(begin, end);
    if first == last {
      PartOfRow(all, rows, first, begin % 64, end - 64 * first);
      count := CountRange(a[first], begin % 64, end - begin, rows[first]);
    } else if first < last {
      count := CountAcrossWords(a, begin, end, first, last, all, rows);
    } else {
      count := 0;
    }
  }

  method CountAcrossWords(a: array<bv64>, begin: nat, end: nat, first: nat, last: nat,
                          ghost all: seq<bool>, ghost rows: seq<seq<bool>>)
    returns (count: nat)
    requires |rows| == a.Length && Tiles(all, rows)
    requires forall k {:trigger rows[k]} :: 0 <= k < |rows| ==> rows[k] == Unpack(a[k])
    requires first < last < a.Length && begin == 64 * first + begin % 64
    requires 64 * last <= end <= 64 * (last + 1)
    ensures count == CountTrue(all[begin..end])
  {
    PartOfRow(all, rows, first, begin % 64, 64);
    count := CountRange(a[first], begin % 64, 64, rows[first]);
    var p := first + 1;
    while p != last
      invariant first < p <= last
      invariant count == CountTrue(all[begin..64 * p])
    {
      count := CountOneMore(a, begin, p, 64, true, count, all, rows);
      p := p + 1;
    }
    count := CountOneMore(a, begin, p, end - last * 64, false, count, all, rows);
  }

  // Adds one more word to the count: all of it, or its first `hi` positions under a mask.
  method CountOneMore(a: array<bv64>, begin: nat, p: nat, hi: nat, whole: bool, before: nat,
                      ghost all: seq<bool>, ghost rows: seq<seq<bool>>)
    returns (count: nat)
    requires |rows| == a.Length && Tiles(all, rows) && p < a.Length && rows[p] == Unpack(a[p])
    requires begin <= 64 * p && hi <= 64 && (whole ==> hi == 64) && before == CountTrue(all[begin..64 * p])
    ensures count == CountTrue(all[begin..64 * p + hi])
  {
    CountIntoRow(all, rows, begin, p, hi);
    var n;
    if whole {
      assert rows[p][0..64] == rows[p];
      n := CountWord(a[p], rows[p]);
    } else {
      n := CountRange(a[p], 0, hi, rows[p]);
    }
    count := before + n;
  }

  class BitVector {
    var size: nat
    var asInteger: bv64
    var asArray: array?<bv64>

    predicate UsingArrayStorage()
      reads this
    {
      size > 64
    }

    function ArraySize(): nat
      reads this
    {
      (size + 63) / 64
    }

    ghost predicate HasStorage()
      reads this
    {
      UsingArrayStorage() ==> asArray != null && asArray.Length == ArraySize()
    }

    // Every position of every word in use, whichever form they are stored in.
    ghost function Positions(): (all: seq<bool>)
      reads this, asArray
      requires HasStorage()
      ensures |all| >= size
    {
      if UsingArrayStorage() then Flat(UnpackAll(asArray[..])) else Unpack(asInteger)
    }

    // The hidden invariant: positions past `size` in the last word stay clear.
    ghost predicate Valid()
      reads this, asArray
    {
      HasStorage() && CleanPast(Positions(), size)
    }

    // The bits, as the client sees them.
    ghost function Contents(): (bits: seq<bool>)
      reads this, asArray
      requires Valid()
      ensures |bits| == size
    {
      Positions()[..size]
    }

    constructor (size: nat, fill: bool)
      ensures Valid() && Contents() == if fill then Trues(size) else Falses(size)
      ensures this.size == size && (asArray != null ==> fresh(asArray))
    {
      this.size := size;
      asInteger := 0;
      asArray := null;
      new;
      InitializeForNewSize(size, fill);
    }

    // Creates array storage only if necessary and fills it. Any prior array is abandoned.
    method InitializeForNewSize(newSize: nat, fill: bool)
      modifies this
      ensures Valid() && size == newSize
      ensures Contents() == if fill then Trues(newSize) else Falses(newSize)
      ensures asArray == old(asArray) || fresh(asArray)
      ensures newSize > 64 ==> fresh(asArray)
    {
      size := newSize;
      if UsingArrayStorage() {
        asArray := new bv64[ArraySize()];
      }
      if fill {
        SetAll();
      } else {
        ClearAll();
      }
    }

    method Resize(newSize: nat, fill: bool)
      modifies this
      ensures Valid() && size == newSize
      ensures Contents() == if fill then Trues(newSize) else Falses(newSize)
      ensures newSize > 64 ==> fresh(asArray)
    {
      InitializeForNewSize(newSize, fill);
    }

    method SetAll()
      requires HasStorage()
      modifies this`asInteger, if UsingArrayStorage() then asArray else null
      ensures Valid() && Contents() == Trues(size)
    {
      if UsingArrayStorage() {
        var last := ArraySize() - 1;
        for i := 0 to last
          invariant forall k :: 0 <= k < i ==> asArray[k] == ALL_BITS
        {
          asArray[i] := ALL_BITS;
        }
        UnpackOnes();
        UnpackMask(size - last * 64);
        asArray[last] := MakeBitmask(0, size - last * 64);
        ghost var rows := UnpackAll(asArray[..]);
        assert rows[..last] == SetRows(last);
        FilledTiles(rows, size - last * 64);
        TilesIsFlat(Trues(size) + Falses(64 * (last + 1) - size), rows);
      } else {
        UnpackMask(size);
        asInteger := MakeBitmask(0, size);
      }
    }

    method ClearAll()
      requires HasStorage()
      modifies this`asInteger, if UsingArrayStorage() then asArray else null
      ensures Valid() && Contents() == Falses(size)
    {
      UnpackZero();
      if UsingArrayStorage() {
        for i := 0 to ArraySize()
          invariant forall k :: 0 <= k < i ==> asArray[k] == 0
        {
          asArray[i] := 0;
        }
        assert UnpackAll(asArray[..]) == ClearRows(ArraySize());
        ClearTiles(ArraySize());
        TilesIsFlat(Falses(64 * ArraySize()), ClearRows(ArraySize()));
      } else {
        asInteger := 0;
      }
    }

    method IsSet(pos: nat) returns (r: bool)
      requires Valid() && pos < size
      ensures r == Contents()[pos]
    {
      var elem, offset := asInteger, pos;
      if UsingArrayStorage() {
        elem, offset := asArray[pos / 64], pos % 64;
        FlatTiles(UnpackAll(asArray[..]));
        TilesAt(Positions(), UnpackAll(asArray[..]), pos / 64, pos % 64);
      }
      TestInWord(elem, offset);
      r := And(elem, Shl(1, offset)) != 0;
    }

    method Set(pos: nat)
      requires Valid() && pos < size
      modifies this`asInteger, asArray
      ensures Valid() && Contents() == old(Contents())[pos := true]
    {
      if UsingArrayStorage() {
        ghost var all, rows := Positions(), UnpackAll(asArray[..]);
        FlatTiles(rows);
        SetInWord(asArray[pos / 64], pos % 64);
        UnpackUpdate(asArray[..], pos / 64, Or(asArray[pos / 64], Shl(1, pos % 64)));
        asArray[pos / 64] := Or(asArray[pos / 64], Shl(1, pos % 64));
        UpdatedTiles(all, rows, pos, true);
        TilesIsFlat(all[pos := true], UnpackAll(asArray[..]));
      } else {
        SetInWord(asInteger, pos);
        asInteger := Or(asInteger, Shl(1, pos));
      }
    }

    method Clear(pos: nat)
      requires Valid() && pos < size
      modifies this`asInteger, asArray
      ensures Valid() && Contents() == old(Contents())[pos := false]
    {
      if UsingArrayStorage() {
        ghost var all, rows := Positions(), UnpackAll(asArray[..]);
        FlatTiles(rows);
        ClearInWord(asArray[pos / 64], pos % 64);
        UnpackUpdate(asArray[..], pos / 64, AndNot(asArray[pos / 64], Shl(1, pos % 64)));
        asArray[pos / 64] := AndNot(asArray[pos / 64], Shl(1, pos % 64));
        UpdatedTiles(all, rows, pos, false);
        TilesIsFlat(all[pos := false], UnpackAll(asArray[..]));
      } else {
        ClearInWord(asInteger, pos);
        asInteger := AndNot(asInteger, Shl(1, pos));
      }
    }

    method ShiftRight(steps: nat)
      requires Valid() && steps <= size
      modifies this`asInteger, asArray
      ensures Valid() && Contents() == ShiftedRight(old(Contents()), steps)
    {
      ShiftKeepsSize(Positions(), size, steps);
      if UsingArrayStorage() {
        ghost var all := Positions();
        FlatTiles(UnpackAll(asArray[..]));
        ghost var shifted, rows := ShiftArray(asArray, steps, all, UnpackAll(asArray[..]));
        TilesIsFlat(shifted, rows);
      } else {
        ShiftInWord(asInteger, steps);
        asInteger := if steps < 64 then Shr(asInteger, steps) else 0;
      }
    }

    method FindFirstSet() returns (r: nat)
      requires Valid()
      ensures r <= size && (r < size ==> Contents()[r])
      ensures forall i :: 0 <= i < r ==> !Contents()[i]
    {
      if UsingArrayStorage() {
        FlatTiles(UnpackAll(asArray[..]));
        r := FindFirstInArray(asArray, size, Positions());
      } else if asInteger != 0 {
        NonZeroHasBit(asInteger);
        r := CountTrailingZeros(asInteger);
      } else {
        UnpackZero();
        r := size;
      }
    }

    method CountBitsSet(begin: nat, end: nat) returns (count: nat)
      requires Valid() && begin <= end <= size
      ensures count == CountTrue(Contents()[begin..end])
    {
      SliceOfPrefix(Positions(), size, begin, end);
      if UsingArrayStorage() {
        FlatTiles(UnpackAll(asArray[..]));
        count := CountInArray(asArray, begin, end, Positions());
      } else {
        count := CountRange(asInteger, begin, end - begin, Unpack(asInteger));
      }
    }
  }
}
