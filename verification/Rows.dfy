/** Bit sequences cut into rows of 64, without any mention of machine words. What each loop of the
    bit vector does to its rows is related here to what it does to the whole sequence. */
module Rows {

  function Falses(n: nat): (s: seq<bool>)
    ensures |s| == n
  {
    seq(n, _ => false)
  }

  function Trues(n: nat): (s: seq<bool>)
    ensures |s| == n
  {
    seq(n, _ => true)
  }

  // What shifting right means: position i becomes position i + k, and false past the end.
  function ShiftedRight(s: seq<bool>, k: nat): (r: seq<bool>)
    requires k <= |s|
    ensures |r| == |s|
  {
    s[k..] + Falses(k)
  }

  lemma ShiftedAt(s: seq<bool>, k: nat)
    requires k <= |s|
    ensures forall i {:trigger ShiftedRight(s, k)[i]} :: 0 <= i < |s| ==>
              ShiftedRight(s, k)[i] == (i + k < |s| && s[i + k])
  {}

  function CountTrue(s: seq<bool>): nat {
    if s == [] then 0 else (if s[0] then 1 else 0) + CountTrue(s[1..])
  }

  lemma {:induction false} CountConcat(s: seq<bool>, t: seq<bool>)
    ensures CountTrue(s + t) == CountTrue(s) + CountTrue(t)
  {
    if s == [] {
      assert s + t == t;
    } else {
      assert (s + t)[1..] == s[1..] + t;
      CountConcat(s[1..], t);
    }
  }

  lemma {:induction false} CountFalses(n: nat)
    ensures CountTrue(Falses(n)) == 0
  {
    if n > 0 {
      assert Falses(n)[1..] == Falses(n - 1);
      CountFalses(n - 1);
    }
  }

  // Counting after a shift by k is counting [k, size) before it.
  lemma CountAfterShift(s: seq<bool>, k: nat)
    requires k <= |s|
    ensures CountTrue(ShiftedRight(s, k)) == CountTrue(s[k..])
  {
    CountConcat(s[k..], Falses(k));
    CountFalses(k);
  }

  lemma ShiftTwice(s: seq<bool>, j: nat, k: nat)
    requires j + k <= |s|
    ensures ShiftedRight(ShiftedRight(s, j), k) == ShiftedRight(s, j + k)
  {
    ShiftedAt(s, j);
    ShiftedAt(s, j + k);
    ShiftedAt(ShiftedRight(s, j), k);
  }

  lemma ShiftByNothing(s: seq<bool>)
    ensures ShiftedRight(s, 0) == s
  {}

  lemma SliceOfSlice(s: seq<bool>, from: nat, to: nat, lo: nat, hi: nat)
    requires from <= to <= |s| && lo <= hi <= to - from
    ensures s[from..to][lo..hi] == s[from + lo..from + hi]
  {
    var cut := s[from..to];
    assert |cut[lo..hi]| == |s[from + lo..from + hi]|;
    forall i | 0 <= i < hi - lo ensures cut[lo..hi][i] == s[from + lo..from + hi][i] {
      assert cut[lo + i] == s[from + lo + i];
    }
  }

  // A shift of two joined pieces, the first taking its freed end from the second.
  lemma ShiftOfJoin(first: seq<bool>, rest: seq<bool>, k: nat)
    requires k <= |first| && k <= |rest|
    ensures ShiftedRight(first + rest, k) == (first[k..] + rest[..k]) + ShiftedRight(rest, k)
  {
    ShiftedAt(first + rest, k);
    ShiftedAt(rest, k);
  }

  // Clean past `size`: nothing set there.
  ghost predicate CleanPast(s: seq<bool>, size: nat) {
    forall i :: size <= i < |s| ==> !s[i]
  }

  // Shifting all positions, the clean ones included, shifts the first `size` of them.
  lemma ShiftKeepsSize(all: seq<bool>, size: nat, k: nat)
    requires k <= size <= |all| && CleanPast(all, size)
    ensures ShiftedRight(all, k)[..size] == ShiftedRight(all[..size], k)
    ensures CleanPast(ShiftedRight(all, k), size)
  {
    ShiftedAt(all, k);
    ShiftedAt(all[..size], k);
  }

  // ---------- Rows

  ghost predicate AreRows(rows: seq<seq<bool>>) {
    forall k :: 0 <= k < |rows| ==> |rows[k]| == 64
  }

  ghost function Flat(rows: seq<seq<bool>>): (s: seq<bool>)
    requires AreRows(rows)
    ensures |s| == 64 * |rows|
  {
    if rows == [] then [] else rows[0] + Flat(rows[1..])
  }

  lemma {:induction false} FlatConcat(a: seq<seq<bool>>, b: seq<seq<bool>>)
    requires AreRows(a) && AreRows(b)
    ensures AreRows(a + b) && Flat(a + b) == Flat(a) + Flat(b)
  {
    if a == [] {
      assert a + b == b;
    } else {
      assert (a + b)[1..] == a[1..] + b;
      FlatConcat(a[1..], b);
    }
  }

  lemma FlatOne(row: seq<bool>)
    requires |row| == 64
    ensures AreRows([row]) && Flat([row]) == row
  {
    assert [row][1..] == [];
  }

  lemma FlatSplit(rows: seq<seq<bool>>, k: nat)
    requires AreRows(rows) && k <= |rows|
    ensures Flat(rows[..k]) == Flat(rows)[..64 * k] && Flat(rows[k..]) == Flat(rows)[64 * k..]
  {
    assert rows == rows[..k] + rows[k..];
    FlatConcat(rows[..k], rows[k..]);
  }

  lemma FlatRow(rows: seq<seq<bool>>, k: nat)
    requires AreRows(rows) && k < |rows|
    ensures Flat(rows)[64 * k..64 * k + 64] == rows[k]
  {
    FlatSplit(rows, k);
    assert rows[k..][0] == rows[k];
    var tail := Flat(rows[k..]);
    assert tail[..64] == rows[k];
    assert Flat(rows)[64 * k..64 * k + 64] == tail[..64];
  }

  // `all` is `rows` laid end to end, said without recursion.
  ghost predicate Tiles(all: seq<bool>, rows: seq<seq<bool>>) {
    && AreRows(rows) && |all| == 64 * |rows|
    && forall k {:trigger rows[k]} :: 0 <= k < |rows| ==> all[64 * k..64 * k + 64] == rows[k]
  }

  lemma FlatTiles(rows: seq<seq<bool>>)
    requires AreRows(rows)
    ensures Tiles(Flat(rows), rows)
  {
    forall k | 0 <= k < |rows| ensures Flat(rows)[64 * k..64 * k + 64] == rows[k] { FlatRow(rows, k); }
  }

  lemma PartOfRow(all: seq<bool>, rows: seq<seq<bool>>, k: nat, lo: nat, hi: nat)
    requires Tiles(all, rows) && k < |rows| && lo <= hi <= 64
    ensures all[64 * k + lo..64 * k + hi] == rows[k][lo..hi]
  {
    SliceOfSlice(all, 64 * k, 64 * k + 64, lo, hi);
  }

  lemma FlatUpdate(rows: seq<seq<bool>>, k: nat, b: nat, value: bool)
    requires AreRows(rows) && k < |rows| && b < 64
    ensures AreRows(rows[k := rows[k][b := value]])
    ensures Flat(rows[k := rows[k][b := value]]) == Flat(rows)[64 * k + b := value]
  {
    var head, tail := rows[..k], rows[k + 1..];
    var row := rows[k][b := value];
    assert rows == head + [rows[k]] + tail;
    assert rows[k := row] == head + [row] + tail;
    FlatConcat(head, [rows[k]]); FlatConcat(head + [rows[k]], tail); FlatOne(rows[k]);
    FlatConcat(head, [row]); FlatConcat(head + [row], tail); FlatOne(row);
    assert Flat(head) + row + Flat(tail) == (Flat(head) + rows[k] + Flat(tail))[64 * k + b := value];
  }

  ghost function ClearRows(n: nat): (rows: seq<seq<bool>>)
    ensures |rows| == n && AreRows(rows)
  {
    seq(n, _ => Falses(64))
  }

  lemma {:induction false} FlatClear(n: nat)
    ensures Flat(ClearRows(n)) == Falses(64 * n)
  {
    if n > 0 {
      assert ClearRows(n)[1..] == ClearRows(n - 1);
      FlatClear(n - 1);
    }
  }

  ghost function SetRows(n: nat): (rows: seq<seq<bool>>)
    ensures |rows| == n && AreRows(rows)
  {
    seq(n, _ => Trues(64))
  }

  lemma {:induction false} FlatSet(n: nat)
    ensures Flat(SetRows(n)) == Trues(64 * n)
  {
    if n > 0 {
      assert SetRows(n)[1..] == SetRows(n - 1);
      FlatSet(n - 1);
    }
  }

  // ---------- Shifting rows

  // Moving whole rows down by q.
  lemma MovedRows(rows: seq<seq<bool>>, q: nat)
    requires AreRows(rows) && q <= |rows|
    ensures AreRows(rows[q..] + ClearRows(q))
    ensures Flat(rows[q..] + ClearRows(q)) == ShiftedRight(Flat(rows), 64 * q)
  {
    FlatConcat(rows[q..], ClearRows(q));
    FlatSplit(rows, q);
    FlatClear(q);
  }

  ghost function RowOrClear(rows: seq<seq<bool>>, k: nat): (row: seq<bool>)
    requires AreRows(rows)
    ensures |row| == 64
  {
    if k < |rows| then rows[k] else Falses(64)
  }

  // A row shifted by `steps`, its freed end filled from the start of the next one.
  ghost function CarriedRow(row: seq<bool>, next: seq<bool>, steps: nat): (r: seq<bool>)
    requires |row| == |next| == 64 && steps < 64
    ensures |r| == 64
  {
    row[steps..] + next[..steps]
  }

  ghost predicate AreCarried(rows: seq<seq<bool>>, carried: seq<seq<bool>>, steps: nat)
    requires AreRows(rows) && steps < 64
  {
    && |carried| == |rows| && AreRows(carried)
    && forall k: nat {:trigger carried[k]} :: k < |rows| ==>
         carried[k] == CarriedRow(rows[k], RowOrClear(rows, k + 1), steps)
  }

  lemma {:induction false} CarriedRows(rows: seq<seq<bool>>, carried: seq<seq<bool>>, steps: nat)
    requires AreRows(rows) && steps < 64 && |rows| > 0 && AreCarried(rows, carried, steps)
    ensures Flat(carried) == ShiftedRight(Flat(rows), steps)
  {
    var rest, rest' := rows[1..], carried[1..];
    assert carried[0] == CarriedRow(rows[0], RowOrClear(rows, 1), steps);
    if rest == [] {
      CarriedLastRow(rows[0], steps);
      FlatOne(rows[0]);
      FlatOne(carried[0]);
      assert rows == [rows[0]] && carried == [carried[0]];
    } else {
      assert AreCarried(rest, rest', steps) by {
        forall k: nat | k < |rest| ensures rest'[k] == CarriedRow(rest[k], RowOrClear(rest, k + 1), steps) {
          assert rest'[k] == carried[k + 1];
        }
      }
      CarriedRows(rest, rest', steps);
      ShiftOfJoin(rows[0], Flat(rest), steps);
      FlatHead(rest, steps);
    }
  }

  lemma CarriedLastRow(row: seq<bool>, steps: nat)
    requires |row| == 64 && steps < 64
    ensures CarriedRow(row, Falses(64), steps) == ShiftedRight(row, steps)
  {}

  lemma FlatHead(rows: seq<seq<bool>>, n: nat)
    requires AreRows(rows) && |rows| > 0 && n <= 64
    ensures Flat(rows)[..n] == rows[0][..n]
  {}

  // ---------- Counting over rows

  lemma JoinCounts(s: seq<bool>, begin: nat, mid: nat, end: nat)
    requires begin <= mid <= end <= |s|
    ensures CountTrue(s[begin..end]) == CountTrue(s[begin..mid]) + CountTrue(s[mid..end])
  {
    assert s[begin..end] == s[begin..mid] + s[mid..end];
    CountConcat(s[begin..mid], s[mid..end]);
  }

  lemma CountIntoRow(all: seq<bool>, rows: seq<seq<bool>>, begin: nat, k: nat, hi: nat)
    requires Tiles(all, rows) && k < |rows| && begin <= 64 * k && hi <= 64
    ensures CountTrue(all[begin..64 * k + hi]) == CountTrue(all[begin..64 * k]) + CountTrue(rows[k][0..hi])
  {
    JoinCounts(all, begin, 64 * k, 64 * k + hi);
    PartOfRow(all, rows, k, 0, hi);
  }

  // The first set position, when all rows before row k are clear.
  lemma FirstInRows(all: seq<bool>, rows: seq<seq<bool>>, k: nat, z: nat)
    requires Tiles(all, rows) && k < |rows| && z < 64
    requires forall j :: 0 <= j < k ==> rows[j] == Falses(64)
    requires rows[k][z] && forall b :: 0 <= b < z ==> !rows[k][b]
    ensures all[64 * k + z] && forall i :: 0 <= i < 64 * k + z ==> !all[i]
  {
    TilesAt(all, rows, k, z);
    forall i | 0 <= i < 64 * k + z ensures !all[i] {
      TilesAt(all, rows, i / 64, i % 64);
    }
  }

  lemma TilesAt(all: seq<bool>, rows: seq<seq<bool>>, k: nat, b: nat)
    requires Tiles(all, rows) && k < |rows| && b < 64
    ensures all[64 * k + b] == rows[k][b]
  {
    assert all[64 * k..64 * k + 64][b] == rows[k][b];
  }

  // ---------- What the operations do to a tiling

  lemma {:induction false} TilesIsFlat(all: seq<bool>, rows: seq<seq<bool>>)
    requires Tiles(all, rows)
    ensures all == Flat(rows)
  {
    FlatTiles(rows);
    var flat := Flat(rows);
    forall i | 0 <= i < |all| ensures all[i] == flat[i] {
      TilesAt(all, rows, i / 64, i % 64);
      TilesAt(flat, rows, i / 64, i % 64);
    }
  }

  lemma MovedTiles(all: seq<bool>, rows: seq<seq<bool>>, q: nat)
    requires Tiles(all, rows) && q <= |rows|
    ensures Tiles(ShiftedRight(all, 64 * q), rows[q..] + ClearRows(q))
  {
    TilesIsFlat(all, rows);
    MovedRows(rows, q);
    FlatTiles(rows[q..] + ClearRows(q));
  }

  lemma CarriedTiles(all: seq<bool>, rows: seq<seq<bool>>, carried: seq<seq<bool>>, steps: nat)
    requires Tiles(all, rows) && steps < 64 && |rows| > 0 && AreCarried(rows, carried, steps)
    ensures Tiles(ShiftedRight(all, steps), carried)
  {
    TilesIsFlat(all, rows);
    CarriedRows(rows, carried, steps);
    FlatTiles(carried);
  }

  lemma UpdatedTiles(all: seq<bool>, rows: seq<seq<bool>>, pos: nat, value: bool)
    requires Tiles(all, rows) && pos < |all|
    ensures Tiles(all[pos := value], rows[pos / 64 := rows[pos / 64][pos % 64 := value]])
  {
    TilesIsFlat(all, rows);
    FlatUpdate(rows, pos / 64, pos % 64, value);
    FlatTiles(rows[pos / 64 := rows[pos / 64][pos % 64 := value]]);
  }

  lemma ClearTiles(n: nat)
    ensures Tiles(Falses(64 * n), ClearRows(n))
  {
    FlatClear(n);
    FlatTiles(ClearRows(n));
  }

  // All rows set but the last, which is set up to `count`.
  lemma FilledTiles(rows: seq<seq<bool>>, count: nat)
    requires |rows| > 0 && count <= 64 && AreRows(rows)
    requires rows[..|rows| - 1] == SetRows(|rows| - 1)
    requires rows[|rows| - 1] == Trues(count) + Falses(64 - count)
    ensures Tiles(Trues(64 * (|rows| - 1) + count) + Falses(64 - count), rows)
  {
    var n := |rows| - 1;
    assert rows == rows[..n] + [rows[n]];
    FlatConcat(rows[..n], [rows[n]]);
    FlatOne(rows[n]);
    FlatSet(n);
    assert Trues(64 * n) + (Trues(count) + Falses(64 - count)) == Trues(64 * n + count) + Falses(64 - count);
    FlatTiles(rows);
  }

  lemma AllRowsClear(all: seq<bool>, rows: seq<seq<bool>>)
    requires Tiles(all, rows) && forall k :: 0 <= k < |rows| ==> rows[k] == Falses(64)
    ensures forall i :: 0 <= i < |all| ==> !all[i]
  {
    forall i | 0 <= i < |all| ensures !all[i] { TilesAt(all, rows, i / 64, i % 64); }
  }

  lemma SliceOfPrefix(s: seq<bool>, size: nat, begin: nat, end: nat)
    requires begin <= end <= size <= |s|
    ensures s[..size][begin..end] == s[begin..end]
  {
    SliceOfSlice(s, 0, size, begin, end);
    assert s[0..size] == s[..size];
  }
}
