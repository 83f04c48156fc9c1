/** The H.264 routines of the passthrough capturer (cast/standalone_sender/simulated_capturer.cc): the
    parameter sets are taken from the file's configuration record once, and every packet is rewritten
    from length-prefixed units to the Annex B byte stream. Data that may be a null pointer is an Option. */
module PassthroughCapturers {
  import opened Basics
  import opened Framing
  import opened AvcConfiguration

  // ---------- Reading at an offset

  // What reading from an offset still gives: the byte stream of the units, how many, and what is left.
  datatype Reading = Reading(stream: Bytes, count: nat, tail: Bytes)

  function From(d: Bytes, offset: nat, width: nat, limit: nat): Reading
    requires offset <= |d|
  {
    var r := Units(d[offset..], width, limit);
    Reading(AnnexB(r.units), |r.units|, r.tail)
  }

  predicate UnitAt(d: Bytes, offset: nat, width: nat)
    requires offset + width <= |d|
  {
    var size := Value(d[offset..offset + width]);
    size > 0 && offset + width + size <= |d|
  }

  lemma FromNext(d: Bytes, offset: nat, width: nat, limit: nat)
    requires offset + width <= |d| && UnitAt(d, offset, width) && limit > 0
    ensures var start := offset + width;
            var end := start + Value(d[offset..start]);
            var r := From(d, end, width, limit - 1);
            From(d, offset, width, limit) == Reading(START_CODE + d[start..end] + r.stream, r.count + 1, r.tail)
  {
    assert d[offset..][..width] == d[offset..offset + width];
    var start := offset + width;
    var end := start + Value(d[offset..start]);
    assert AfterUnit(d[offset..], width) == d[end..] && FirstUnit(d[offset..], width) == d[start..end];
    var r := Units(d[end..], width, limit - 1);
    assert ([d[start..end]] + r.units)[1..] == r.units;
  }

  lemma FromLast(d: Bytes, offset: nat, width: nat, limit: nat)
    requires offset <= |d| && (limit == 0 || offset + width > |d| || !UnitAt(d, offset, width))
    ensures From(d, offset, width, limit) == Reading([], 0, d[offset..])
  {
    if offset + width <= |d| {
      assert d[offset..][..width] == d[offset..offset + width];
    }
  }

  // Reading on from `offset` completes `out` to `whole`.
  ghost predicate Pending(out: Bytes, d: Bytes, offset: nat, width: nat, limit: nat, whole: Reading) {
    && offset <= |d|
    && out + From(d, offset, width, limit).stream == whole.stream
    && From(d, offset, width, limit).count + whole.count == limit
    && From(d, offset, width, limit).tail == whole.tail
  }

  // `count` is what is missing of `limit` at the end.
  function Whole(out: Bytes, d: Bytes, offset: nat, width: nat, limit: nat): Reading
    requires offset <= |d| && From(d, offset, width, limit).count <= limit
  {
    var r := From(d, offset, width, limit);
    Reading(out + r.stream, limit - r.count, r.tail)
  }

  lemma FromLimited(d: Bytes, offset: nat, width: nat, limit: nat)
    requires offset <= |d|
    ensures From(d, offset, width, limit).count <= limit
  {
    FramedOfUnits(d[offset..], width, limit);
  }

  lemma PendingNext(out: Bytes, d: Bytes, offset: nat, width: nat, size: nat, limit: nat, whole: Reading)
    requires offset + width + size <= |d| && size == Value(d[offset..offset + width]) && size > 0 && limit > 0
    requires Pending(out, d, offset, width, limit, whole)
    ensures Pending(WithUnit(out, d[offset + width..offset + width + size]), d, offset + width + size, width,
            limit - 1, whole)
  {
    FromNext(d, offset, width, limit);
    RegroupFour(out, START_CODE, d[offset + width..offset + width + size],
        From(d, offset + width + size, width, limit - 1).stream);
  }

  lemma PendingLast(out: Bytes, d: Bytes, offset: nat, width: nat, limit: nat, whole: Reading)
    requires Pending(out, d, offset, width, limit, whole)
    requires limit == 0 || offset + width > |d| || !UnitAt(d, offset, width)
    ensures whole == Reading(out, limit, d[offset..])
  {
    FromLast(d, offset, width, limit);
    Regroup(out, [], []);
  }

  lemma TwoByteValue(d: Bytes, offset: nat)
    requires offset + 2 <= |d|
    ensures Value(d[offset..offset + 2]) == d[offset] as int * 256 + d[offset + 1]
  {
    var b := d[offset..offset + 2];
    assert b[..1] == [d[offset]] && Value([d[offset]]) == d[offset];
  }

  // Shifting a byte into a 32-bit unsigned integer.
  function ShiftIn(size: nat, b: Byte): nat { size * 256 % 0x1_0000_0000 + b }

  lemma ShiftInIsValue(d: Bytes, offset: nat, i: nat)
    requires offset + i < |d| && i < 4
    ensures ShiftIn(Value(d[offset..offset + i]), d[offset + i]) == Value(d[offset..offset + i + 1])
  {
    var b := d[offset..offset + i];
    ValueBelow(b);
    assert Power256(1) == 256 && Power256(2) == 65536 && Power256(3) == 0x100_0000;
    assert d[offset..offset + i + 1][..i] == b;
  }

  // The value of `width` bytes of a packet, most significant first.
  method ReadSize(d: Bytes, offset: nat, width: nat) returns (size: nat)
    requires offset + width <= |d| && width <= 4
    ensures size == Value(d[offset..offset + width])
  {
    size := 0;
    for i := 0 to width
      invariant size == Value(d[offset..offset + i])
    {
      ShiftInIsValue(d, offset, i);
      size := ShiftIn(size, d[offset + i]);
    }
  }

  function ErrorOf(r: Result): Option<Error> {
    if r.Ok? then None else Some(r.error)
  }

  // The outcome of the first list of sets decides whether the second is read.
  lemma ParsedInStages(e: Bytes)
    requires |e| >= 7 && e[0] == 1
    ensures var sps, n := From(e, 6, LENGTH_WIDTH, e[5] % 32), e[5] % 32;
            && sps.count <= n
            && (sps.count < n ==>
                  && ErrorOf(Parsed(Some(e))) == Some(if |sps.tail| < 2 then TruncatedSpsLength else TruncatedSpsNal)
                  && AnnexB(SetsRead(e)) == sps.stream)
            && (sps.count == n && sps.tail == [] ==>
                  ErrorOf(Parsed(Some(e))) == Some(MissingPpsCount) && AnnexB(SetsRead(e)) == sps.stream)
            && (sps.count == n && sps.tail != [] ==>
                  && ErrorOf(Parsed(Some(e))) == PpsError(sps.tail)
                  && AnnexB(SetsRead(e)) == sps.stream + AnnexB(PpsParse(sps.tail).units))
    ensures Parsed(Some(e)).Ok? ==> SetsRead(e) == Parsed(Some(e)).config.sps + Parsed(Some(e)).config.pps
  {
    FromLimited(e, 6, LENGTH_WIDTH, e[5] % 32);
    Regroup(SpsParse(e).units, [], []);
    var tail := SpsParse(e).tail;
    if tail != [] { AnnexBAppend(SpsParse(e).units, PpsParse(tail).units); }
  }

  lemma StreamNotEmpty(d: Bytes, width: nat, limit: nat)
    requires d != [] && From(d, 0, width, limit).tail == []
    ensures From(d, 0, width, limit).stream != []
  {
    assert d[0..] == d;
    var r := Units(d, width, limit);
    assert r.units != [];
    assert |AnnexB(r.units)| >= |START_CODE|;
  }

  // One unit of a packet is appended, unless it is empty or cut short.
  method AppendUnit(before: Bytes, d: Bytes, offset: nat, width: nat, ghost limit: nat, ghost whole: Reading)
    returns (ok: bool, out: Bytes, next: nat)
    requires 1 <= width <= 4 && offset + width <= |d| && limit > 0 && Pending(before, d, offset, width, limit, whole)
    ensures ok ==> offset + width < next <= |d| && Pending(out, d, next, width, limit - 1, whole)
    ensures !ok ==> out == whole.stream && whole.tail != [] && next == offset
  {
    var size := ReadSize(d, offset, width);
    if size == 0 || size > |d| - (offset + width) {
      PendingLast(before, d, offset, width, limit, whole);
      return false, before, offset;
    }
    PendingNext(before, d, offset, width, size, limit, whole);
    out := WithUnit(before, d[offset + width..offset + width + size]);
    ok, next := true, offset + width + size;
  }

  // The loop over a packet's units, up to the first that is cut short.
  method AppendUnits(before: Bytes, d: Bytes, width: nat) returns (ok: bool, out: Bytes)
    requires 1 <= width <= 4
    ensures out == before + From(d, 0, width, |d|).stream
    ensures ok <==> From(d, 0, width, |d|).tail == []
  {
    var offset := 0;
    out := before;
    FromLimited(d, 0, width, |d|);
    ghost var limit := |d|;
    ghost var whole := Whole(out, d, 0, width, |d|);
    while offset + width <= |d|
      invariant offset <= |d| && |d| - offset <= limit
      invariant Pending(out, d, offset, width, limit, whole)
      decreases |d| - offset
    {
      ok, out, offset := AppendUnit(out, d, offset, width, limit, whole);
      if !ok {
        return;
      }
      limit := limit - 1;
    }
    PendingLast(out, d, offset, width, limit, whole);
    ok := offset == |d|;
  }

  // The data is non-empty units behind their lengths, and nothing else.
  ghost predicate IsFramed(d: Bytes, width: nat) { exists units :: Frames(d, units, width) }

  // Framed units are the ones read, and nothing else is.
  lemma FramesOnly(d: Bytes, width: nat)
    requires width > 0
    ensures Units(d, width, |d|).tail == [] <==> IsFramed(d, width)
    ensures forall units :: Frames(d, units, width) ==> units == Units(d, width, |d|).units
  {
    UnitsDecide(d, width, Units(d, width, |d|).units);
    forall units | Frames(d, units, width) ensures Units(d, width, |d|) == Parse(units, []) {
      UnitsDecide(d, width, units);
    }
  }

  // ---------- The capturer

  class PassthroughCapturer {
    var nalLengthSize: nat
    var parameterSets: Bytes
    var filtered: Bytes

    ghost predicate Valid()
      reads this
    {
      1 <= nalLengthSize <= 4
    }

    constructor ()
      ensures Valid() && nalLengthSize == 4 && parameterSets == [] && filtered == []
    {
      nalLengthSize, parameterSets, filtered := 4, [], [];
    }

    // Appends `count` parameter sets, or those before the first that is cut short.
    method ReadSets(e: Bytes, start: nat, count: nat) returns (ok: bool, offset: nat)
      requires start <= |e|
      modifies this`parameterSets
      ensures parameterSets == old(parameterSets) + From(e, start, LENGTH_WIDTH, count).stream
      ensures offset <= |e| && e[offset..] == From(e, start, LENGTH_WIDTH, count).tail
      ensures ok <==> From(e, start, LENGTH_WIDTH, count).count == count
    {
      offset := start;
      FromLimited(e, start, 2, count);
      ghost var whole := Whole(parameterSets, e, start, 2, count);
      for i := 0 to count
        invariant offset <= |e| && Pending(parameterSets, e, offset, 2, count - i, whole)
      {
        if offset + 2 > |e| {
          PendingLast(parameterSets, e, offset, 2, count - i, whole);
          return false, offset;
        }
        TwoByteValue(e, offset);
        var size := e[offset] as int * 256 + e[offset + 1];
        if size <= 0 || offset + 2 + size > |e| {
          PendingLast(parameterSets, e, offset, 2, count - i, whole);
          return false, offset;
        }
        PendingNext(parameterSets, e, offset, 2, size, count - i, whole);
        offset := offset + 2;
        parameterSets := WithUnit(parameterSets, e[offset..offset + size]);
        offset := offset + size;
      }
      PendingLast(parameterSets, e, offset, 2, 0, whole);
      ok := true;
    }

    method InitializeAvcConfiguration(extradata: Option<Bytes>) returns (error: Option<Error>)
      requires Valid()
      modifies this`nalLengthSize, this`parameterSets
      ensures Valid() && error == ErrorOf(Parsed(extradata))
      ensures error.None? ==>
                nalLengthSize == Parsed(extradata).config.lengthSize
                && parameterSets == AnnexB(Parsed(extradata).config.sps + Parsed(extradata).config.pps)
      ensures error.Some? ==>
                if error.value.MissingExtradata? || error.value.UnsupportedExtradata?
                then nalLengthSize == old(nalLengthSize) && parameterSets == old(parameterSets)
                else nalLengthSize == extradata.value[4] % 4 + 1 && parameterSets == AnnexB(SetsRead(extradata.value))
    {
      if extradata.None? || |extradata.value| < 7 {
        return Some(MissingExtradata);
      }
      var e := extradata.value;
      if e[0] != 1 {
        return Some(UnsupportedExtradata);
      }
      nalLengthSize := e[4] % 4 + 1;
      parameterSets := [];
      error := ReadBothSets(e);
    }

    method ReadBothSets(e: Bytes) returns (error: Option<Error>)
      requires |e| >= 7 && e[0] == 1 && parameterSets == []
      modifies this`parameterSets
      ensures parameterSets == AnnexB(SetsRead(e)) && error == ErrorOf(Parsed(Some(e)))
      ensures error.None? ==> SetsRead(e) == Parsed(Some(e)).config.sps + Parsed(Some(e)).config.pps
    {
      ParsedInStages(e);
      var ok, offset := ReadSets(e, 6, e[5] % 32);
      if !ok {
        return Some(if offset + 2 > |e| then TruncatedSpsLength else TruncatedSpsNal);
      }
      if offset + 1 > |e| {
        return Some(MissingPpsCount);
      }
      error := ReadPps(e, offset);
    }

    method ReadPps(e: Bytes, offset: nat) returns (error: Option<Error>)
      requires offset < |e|
      modifies this`parameterSets
      ensures parameterSets == old(parameterSets) + AnnexB(PpsParse(e[offset..]).units)
      ensures error == PpsError(e[offset..])
    {
      assert e[offset..][1..] == e[offset + 1..];
      var ok, end := ReadSets(e, offset + 1, e[offset]);
      error := if ok then None else Some(if end + 2 > |e| then TruncatedPpsLength else TruncatedPpsNal);
    }

    // The packet is accepted exactly when it is framed units and not empty; the output is then the
    // parameter sets if asked for, and every unit behind a start code.
    method ConvertPacketToAnnexB(packet: Option<Bytes>, prepend: bool) returns (ok: bool)
      requires Valid()
      modifies this`filtered
      ensures ok <==> packet.Some? && packet.value != [] && IsFramed(packet.value, nalLengthSize)
      ensures forall units :: ok && Frames(packet.value, units, nalLengthSize) ==>
                filtered == (if prepend then parameterSets else []) + AnnexB(units)
      ensures filtered ==
                if packet.None? || packet.value == [] then old(filtered)
                else
                  (if prepend then parameterSets else [])
                  + AnnexB(Units(packet.value, nalLengthSize, |packet.value|).units)
    {
      if packet.None? || packet.value == [] {
        return false;
      }
      var d, width := packet.value, nalLengthSize;
      filtered := [];
      if prepend && parameterSets != [] {
        filtered := filtered + parameterSets;
      }
      assert filtered == if prepend then parameterSets else [];
      assert d[0..] == d;
      FramesOnly(d, width);
      var complete, out := AppendUnits(filtered, d, width);
      if complete {
        StreamNotEmpty(d, width, |d|);
        assert |out| == |filtered| + |From(d, 0, width, |d|).stream|;
      }
      filtered := out;
      ok := complete && filtered != [];
    }
  }

  // ---------- What a decoder gets

  // From the bytes of a record and of a packet to the units a decoder finds: the output of
  // ConvertPacketToAnnexB splits into the record's parameter sets (when asked for) and then exactly the
  // packet's own units.
  lemma DecoderGetsTheUnits(e: Bytes, c: Config, extension: Bytes, packet: Bytes, units: seq<Bytes>, prepend: bool)
    requires IsRecord(e, c, extension) && Frames(packet, units, c.lengthSize)
    requires AllClean(c.sps) && AllClean(c.pps) && AllClean(units)
    ensures Parsed(Some(e)) == Ok(c)
    ensures Units(packet, c.lengthSize, |packet|) == Parse(units, [])
    ensures var sets := if prepend then c.sps + c.pps else [];
            SplitStream((if prepend then AnnexB(c.sps + c.pps) else []) + AnnexB(units)) == Some(sets + units)
  {
    RecordIsParsed(e, c, extension);
    UnitsDecide(packet, c.lengthSize, units);
    var sets := if prepend then c.sps + c.pps else [];
    AnnexBAppend(sets, units);
    SplitOfAnnexB(sets + units);
  }
}
