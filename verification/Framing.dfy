/** The two framings of H.264 NAL units: length-prefixed, as stored in MP4 files (ISO/IEC 14496-15), and
    the byte stream format of Annex B of ITU-T H.264; with the reading of each, and the round trips. */
module Framing {
  import opened Basics

  type Byte = x: int | 0 <= x < 256
  type Bytes = seq<Byte>

  // ---------- Big-endian lengths

  function Power256(n: nat): (p: nat)
    ensures p > 0
  {
    if n == 0 then 1 else 256 * Power256(n - 1)
  }

  function Value(b: Bytes): nat {
    if b == [] then 0 else Value(b[..|b| - 1]) * 256 + b[|b| - 1]
  }

  // The `width`-byte big-endian numeral of `n`.
  function Numeral(n: nat, width: nat): Bytes {
    if width == 0 then [] else Numeral(n / 256, width - 1) + [n % 256]
  }

  lemma {:induction false} ValueBelow(b: Bytes)
    ensures Value(b) < Power256(|b|)
  {
    if b != [] { ValueBelow(b[..|b| - 1]); }
  }

  lemma {:induction false} NumeralLength(n: nat, width: nat)
    ensures |Numeral(n, width)| == width
  {
    if width > 0 { NumeralLength(n / 256, width - 1); }
  }

  lemma {:induction false} ValueOfNumeral(n: nat, width: nat)
    requires n < Power256(width)
    ensures |Numeral(n, width)| == width && Value(Numeral(n, width)) == n
  {
    if width > 0 {
      ValueOfNumeral(n / 256, width - 1);
      assert Numeral(n, width)[..width - 1] == Numeral(n / 256, width - 1);
    }
  }

  lemma {:induction false} NumeralOfValue(b: Bytes)
    ensures Numeral(Value(b), |b|) == b
  {
    if b != [] {
      NumeralOfValue(b[..|b| - 1]);
      assert b == b[..|b| - 1] + [b[|b| - 1]];
    }
  }

  // ---------- Length-prefixed units

  predicate Sized(u: Bytes, width: nat) { 0 < |u| < Power256(width) }

  // Every unit is non-empty and its size fits the length field.
  predicate AllSized(units: seq<Bytes>, width: nat) {
    forall i :: 0 <= i < |units| ==> Sized(units[i], width)
  }

  function Framed(units: seq<Bytes>, width: nat): Bytes {
    if units == [] then [] else Numeral(|units[0]|, width) + units[0] + Framed(units[1..], width)
  }

  // What reading unit after unit gives: the units, and what is left where reading stopped.
  datatype Parse = Parse(units: seq<Bytes>, tail: Bytes)

  predicate HasUnit(d: Bytes, width: nat) {
    && width <= |d|
    && Value(d[..width]) > 0
    && width + Value(d[..width]) <= |d|
  }

  function FirstUnit(d: Bytes, width: nat): (u: Bytes)
    requires HasUnit(d, width)
  {
    d[width..width + Value(d[..width])]
  }

  function AfterUnit(d: Bytes, width: nat): (rest: Bytes)
    requires HasUnit(d, width)
  {
    d[width + Value(d[..width])..]
  }

  // At most `limit` units are read.
  function Units(d: Bytes, width: nat, limit: nat): Parse {
    if limit == 0 || !HasUnit(d, width) then Parse([], d)
    else Read(FirstUnit(d, width), Units(AfterUnit(d, width), width, limit - 1))
  }

  function Read(u: Bytes, r: Parse): Parse { Parse([u] + r.units, r.tail) }

  // A framed unit followed by anything is read as that unit.
  lemma FirstOfFramed(u: Bytes, width: nat, after: Bytes)
    requires Sized(u, width)
    ensures var d := Numeral(|u|, width) + u + after;
            HasUnit(d, width) && FirstUnit(d, width) == u && AfterUnit(d, width) == after
  {
    ValueOfNumeral(|u|, width);
    var d := Numeral(|u|, width) + u + after;
    assert d[..width] == Numeral(|u|, width);
    assert d[width..width + |u|] == u;
    assert d[width + |u|..] == after;
  }

  // And what is read as a unit was framed there.
  lemma FramedOfFirst(d: Bytes, width: nat)
    requires HasUnit(d, width)
    ensures d == Numeral(|FirstUnit(d, width)|, width) + FirstUnit(d, width) + AfterUnit(d, width)
    ensures Sized(FirstUnit(d, width), width)
  {
    ValueBelow(d[..width]);
    NumeralOfValue(d[..width]);
  }

  lemma FramedCons(u: Bytes, units: seq<Bytes>, width: nat, tail: Bytes)
    ensures Framed([u] + units, width) + tail == Numeral(|u|, width) + u + (Framed(units, width) + tail)
  {
    assert ([u] + units)[0] == u && ([u] + units)[1..] == units;
    RegroupFour(Numeral(|u|, width), u, Framed(units, width), tail);
  }

  lemma UnitsNext(u: Bytes, width: nat, after: Bytes, limit: nat)
    requires Sized(u, width) && limit > 0
    ensures Units(Numeral(|u|, width) + u + after, width, limit) == Read(u, Units(after, width, limit - 1))
  {
    FirstOfFramed(u, width, after);
  }

  lemma AllSizedCons(u: Bytes, units: seq<Bytes>, width: nat)
    ensures AllSized([u] + units, width) <==> Sized(u, width) && AllSized(units, width)
  {
    var all := [u] + units;
    assert all[0] == u && forall i :: 0 <= i < |units| ==> all[i + 1] == units[i];
    if AllSized(all, width) {
      forall i | 0 <= i < |units| ensures Sized(units[i], width) { assert Sized(all[i + 1], width); }
    }
  }

  // Reading back what was framed, whatever follows it.
  lemma {:induction false} UnitsOfFramed(units: seq<Bytes>, width: nat, tail: Bytes, limit: nat)
    requires AllSized(units, width) && |units| <= limit
    requires limit == |units| || !HasUnit(tail, width)
    ensures Units(Framed(units, width) + tail, width, limit) == Parse(units, tail)
  {
    if units == [] {
      assert Framed(units, width) + tail == tail;
    } else {
      assert units == [units[0]] + units[1..];
      AllSizedCons(units[0], units[1..], width);
      UnitsOfFramed(units[1..], width, tail, limit - 1);
      UnitsOfFramedCons(units[0], units[1..], width, tail, limit);
    }
  }

  lemma UnitsOfFramedCons(u: Bytes, units: seq<Bytes>, width: nat, tail: Bytes, limit: nat)
    requires Sized(u, width) && limit > 0
    requires Units(Framed(units, width) + tail, width, limit - 1) == Parse(units, tail)
    ensures Units(Framed([u] + units, width) + tail, width, limit) == Parse([u] + units, tail)
  {
    FramedCons(u, units, width, tail);
    UnitsNext(u, width, Framed(units, width) + tail, limit);
  }

  // `r` is laid out in `d`, in order, and ends for want of another unit.
  predicate LaidOut(d: Bytes, r: Parse, width: nat, limit: nat) {
    && d == Framed(r.units, width) + r.tail
    && AllSized(r.units, width) && |r.units| <= limit
    && (|r.units| < limit ==> !HasUnit(r.tail, width))
  }

  lemma LaidOutNext(d: Bytes, r: Parse, width: nat, limit: nat)
    requires HasUnit(d, width) && limit > 0 && LaidOut(AfterUnit(d, width), r, width, limit - 1)
    ensures LaidOut(d, Read(FirstUnit(d, width), r), width, limit)
  {
    FramedOfFirst(d, width);
    FramedCons(FirstUnit(d, width), r.units, width, r.tail);
    AllSizedCons(FirstUnit(d, width), r.units, width);
  }

  // What was read is what is there.
  lemma {:induction false} FramedOfUnits(d: Bytes, width: nat, limit: nat)
    ensures LaidOut(d, Units(d, width, limit), width, limit)
  {
    if limit == 0 || !HasUnit(d, width) {
      assert Framed([], width) + d == d;
    } else {
      FramedOfUnits(AfterUnit(d, width), width, limit - 1);
      LaidOutNext(d, Units(AfterUnit(d, width), width, limit - 1), width, limit);
    }
  }

  lemma {:induction false} FramedLength(units: seq<Bytes>, width: nat)
    requires AllSized(units, width)
    ensures |Framed(units, width)| >= |units|
  {
    if units != [] {
      NumeralLength(|units[0]|, width);
      FramedLength(units[1..], width);
    }
  }

  // `d` is nothing but the framed units.
  predicate Frames(d: Bytes, units: seq<Bytes>, width: nat) {
    d == Framed(units, width) && AllSized(units, width)
  }

  // There is at most one way to read data as framed units, and reading without a limit finds it.
  lemma UnitsDecide(d: Bytes, width: nat, units: seq<Bytes>)
    requires width > 0
    ensures Frames(d, units, width) <==> Units(d, width, |d|) == Parse(units, [])
  {
    FramedOfUnits(d, width, |d|);
    if Frames(d, units, width) {
      FramedLength(units, width);
      UnitsOfFramed(units, width, [], |d|);
      assert d + [] == d;
    }
    if Units(d, width, |d|) == Parse(units, []) {
      assert Framed(units, width) + [] == Framed(units, width);
    }
  }

  // ---------- Annex B

  const START_CODE: Bytes := [0, 0, 0, 1]

  function AnnexB(units: seq<Bytes>): Bytes {
    if units == [] then [] else START_CODE + units[0] + AnnexB(units[1..])
  }

  lemma {:induction false} AnnexBAppend(a: seq<Bytes>, b: seq<Bytes>)
    ensures AnnexB(a + b) == AnnexB(a) + AnnexB(b)
  {
    if a == [] {
      assert a + b == b;
    } else {
      AnnexBAppend(a[1..], b);
      assert (a + b)[0] == a[0] && (a + b)[1..] == a[1..] + b;
      RegroupFour(START_CODE, a[0], AnnexB(a[1..]), AnnexB(b));
    }
  }

  // A start code and a unit are appended.
  function WithUnit(out: Bytes, u: Bytes): (r: Bytes)
    ensures r != []
  {
    out + START_CODE + u
  }

  predicate Zeros(s: Bytes, n: nat) {
    n <= |s| && forall i :: 0 <= i < n ==> s[i] == 0
  }

  // A three-byte start code prefix, and a place where a NAL unit ends before the stream does.
  predicate AtPrefix(s: Bytes) { |s| >= 3 && s[0] == 0 && s[1] == 0 && s[2] == 1 }
  predicate AtEnd(s: Bytes) { AtPrefix(s) || Zeros(s, 3) }

  // What follows the zero bytes and the start code prefix of the next unit.
  function AfterPrefix(s: Bytes): (r: Option<Bytes>)
    ensures r.Some? ==> |r.value| < |s|
  {
    if AtPrefix(s) then Some(s[3..])
    else if |s| > 0 && s[0] == 0 then AfterPrefix(s[1..])
    else None
  }

  // The size of the NAL unit at the start of `s`: it ends before the first 000000 or 000001, or with
  // the stream (section B.1.2 of ITU-T H.264).
  function UnitSize(s: Bytes): (n: nat)
    ensures n <= |s|
  {
    if s == [] || AtEnd(s) then 0 else 1 + UnitSize(s[1..])
  }

  // The NAL units of a byte stream, by the syntax and decoding process of section B.1.
  function SplitStream(s: Bytes): (r: Option<seq<Bytes>>)
    decreases |s|
  {
    if Zeros(s, |s|) then Some([])
    else
      match AfterPrefix(s)
      case None => None
      case Some(t) =>
        var n := UnitSize(t);
        var rest := SplitStream(t[n..]);
        if rest.None? then None else Some([t[..n]] + rest.value)
  }

  // Section 7.4.1: no 000000, 000001 or 000002 inside a NAL unit, and its last byte is not zero.
  predicate Clean(u: Bytes) {
    && u != [] && u[|u| - 1] != 0
    && forall i :: 0 <= i < |u| - 2 ==> !(u[i] == 0 && u[i + 1] == 0 && u[i + 2] <= 2)
  }

  predicate AllClean(units: seq<Bytes>) {
    forall i :: 0 <= i < |units| ==> Clean(units[i])
  }

  // No NAL unit ends inside a clean one, whatever follows it.
  lemma {:induction false} UnitSizeOfClean(u: Bytes, after: Bytes, k: nat)
    requires Clean(u) && k <= |u| && (after == [] || AtEnd(after))
    ensures UnitSize(u[k..] + after) == |u| - k
    decreases |u| - k
  {
    var s := u[k..] + after;
    if k == |u| {
      assert s == after;
    } else {
      UnitSizeOfClean(u, after, k + 1);
      assert s[1..] == u[k + 1..] + after;
      if k + 2 < |u| {
        assert s[0] == u[k] && s[1] == u[k + 1] && s[2] == u[k + 2];
      } else {
        assert s[|u| - 1 - k] == u[|u| - 1];
      }
    }
  }

  // Splitting the byte stream gives back the units.
  lemma {:induction false} SplitOfAnnexB(units: seq<Bytes>)
    requires AllClean(units)
    ensures SplitStream(AnnexB(units)) == Some(units)
  {
    if units != [] {
      var u, rest := units[0], AnnexB(units[1..]);
      var s := AnnexB(units);
      assert s[3] == 1 && s[1..][..3] == [0, 0, 1];
      assert s[1..][3..] == u + rest;
      assert AfterPrefix(s) == AfterPrefix(s[1..]) == Some(u + rest);
      UnitSizeOfClean(u, rest, 0);
      assert u[0..] == u;
      assert (u + rest)[..|u|] == u && (u + rest)[|u|..] == rest;
      SplitOfAnnexB(units[1..]);
      assert units == [u] + units[1..];
    }
  }
}
