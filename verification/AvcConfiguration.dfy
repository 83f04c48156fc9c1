/** The AVCDecoderConfigurationRecord (section 5.3.3.1 of ISO/IEC 14496-15) that a file carries for its
    H.264 track: its layout, the reading of it, and the agreement of the two. */
module AvcConfiguration {
  import opened Basics
  import opened Framing

  datatype Config = Config(lengthSize: nat, sps: seq<Bytes>, pps: seq<Bytes>)

  datatype Error =
    | MissingExtradata
    | UnsupportedExtradata
    | TruncatedSpsLength
    | TruncatedSpsNal
    | MissingPpsCount
    | TruncatedPpsLength
    | TruncatedPpsNal

  datatype Result = Ok(config: Config) | Err(error: Error)

  const LENGTH_WIDTH: nat := 2    // of the length of a parameter set

  // ---------- The layout

  // A record: version 1, three profile and level bytes, the length size, the sets, and whatever
  // extensions follow them. Only the low bits of bytes 4 and 5 are defined.
  predicate IsRecord(e: Bytes, c: Config, extension: Bytes) {
    && |e| >= 6
    && e[0] == 1
    && c.lengthSize == e[4] % 4 + 1
    && |c.sps| == e[5] % 32 && AllSized(c.sps, LENGTH_WIDTH)
    && |c.pps| < 256 && AllSized(c.pps, LENGTH_WIDTH)
    && e[6..] == Sets(c.sps, c.pps, extension)
  }

  function Sets(sps: seq<Bytes>, pps: seq<Bytes>, extension: Bytes): Bytes
    requires |pps| < 256
  {
    Framed(sps, LENGTH_WIDTH) + ([|pps|] + (Framed(pps, LENGTH_WIDTH) + extension))
  }

  // The record of at most 31 sequence and 255 picture parameter sets, reserved bits set.
  function Serialized(profile: Byte, compatibility: Byte, level: Byte, c: Config, extension: Bytes): (e: Bytes)
    requires 1 <= c.lengthSize <= 4 && |c.sps| < 32 && |c.pps| < 256
  {
    [1, profile, compatibility, level, 252 + (c.lengthSize - 1), 224 + |c.sps|] + Sets(c.sps, c.pps, extension)
  }

  // ---------- Reading it

  function SpsParse(e: Bytes): Parse
    requires |e| >= 6
  {
    Units(e[6..], LENGTH_WIDTH, e[5] % 32)
  }

  function PpsParse(tail: Bytes): Parse
    requires tail != []
  {
    Units(tail[1..], LENGTH_WIDTH, tail[0])
  }

  // InitializeAvcConfiguration, which is given no extradata or some.
  function Parsed(extradata: Option<Bytes>): (r: Result) {
    if extradata.None? || |extradata.value| < 7 then Err(MissingExtradata)
    else
      var e := extradata.value;
      if e[0] != 1 then Err(UnsupportedExtradata)
      else
        var sps := SpsParse(e);
        if |sps.units| < e[5] % 32 then Err(if |sps.tail| < LENGTH_WIDTH then TruncatedSpsLength else TruncatedSpsNal)
        else if sps.tail == [] then Err(MissingPpsCount)
        else
          var error := PpsError(sps.tail);
          if error.Some? then Err(error.value)
          else Ok(Config(e[4] % 4 + 1, sps.units, PpsParse(sps.tail).units))
  }

  function PpsError(tail: Bytes): Option<Error>
    requires tail != []
  {
    var pps := PpsParse(tail);
    if |pps.units| == tail[0] then None
    else Some(if |pps.tail| < LENGTH_WIDTH then TruncatedPpsLength else TruncatedPpsNal)
  }

  // The parameter sets read before reading stopped, with or without an error.
  function SetsRead(e: Bytes): (sets: seq<Bytes>)
    requires |e| >= 7
  {
    var sps := SpsParse(e);
    sps.units + (if |sps.units| < e[5] % 32 || sps.tail == [] then [] else PpsParse(sps.tail).units)
  }

  // ---------- The two agree

  // What is laid out is read back.
  lemma RecordIsParsed(e: Bytes, c: Config, extension: Bytes)
    requires IsRecord(e, c, extension)
    ensures Parsed(Some(e)) == Ok(c)
  {
    var tail := [|c.pps|] + (Framed(c.pps, LENGTH_WIDTH) + extension);
    UnitsOfFramed(c.sps, LENGTH_WIDTH, tail, |c.sps|);
    UnitsOfFramed(c.pps, LENGTH_WIDTH, extension, |c.pps|);
    assert tail[1..] == Framed(c.pps, LENGTH_WIDTH) + extension;
    assert |e[6..]| >= 1;
  }

  lemma PpsLaidOut(tail: Bytes)
    requires tail != [] && |PpsParse(tail).units| == tail[0]
    ensures AllSized(PpsParse(tail).units, LENGTH_WIDTH)
    ensures tail == [tail[0]] + (Framed(PpsParse(tail).units, LENGTH_WIDTH) + PpsParse(tail).tail)
  {
    FramedOfUnits(tail[1..], LENGTH_WIDTH, tail[0]);
  }

  // And whatever is read was laid out.
  lemma ParsedIsRecord(e: Bytes) returns (extension: Bytes)
    requires Parsed(Some(e)).Ok?
    ensures IsRecord(e, Parsed(Some(e)).config, extension)
  {
    FramedOfUnits(e[6..], LENGTH_WIDTH, e[5] % 32);
    var sps := SpsParse(e);
    PpsLaidOut(sps.tail);
    extension := PpsParse(sps.tail).tail;
  }

  // Extradata is accepted exactly when it is a record, and then as the one configuration it lays out.
  lemma AcceptedExactlyRecords(e: Bytes, c: Config)
    ensures Parsed(Some(e)) == Ok(c) <==> exists extension :: IsRecord(e, c, extension)
  {
    if Parsed(Some(e)) == Ok(c) {
      var extension := ParsedIsRecord(e);
    }
    forall extension | IsRecord(e, c, extension) ensures Parsed(Some(e)) == Ok(c) {
      RecordIsParsed(e, c, extension);
    }
  }

  // The bytes left where reading stopped are too few for a length, or the length is zero or more than is left.
  predicate CutShort(tail: Bytes, inLength: bool) {
    if inLength then |tail| < 2
    else |tail| >= 2 && (Value(tail[..2]) == 0 || Value(tail[..2]) > |tail| - 2)
  }

  // Each error means what it says: the sets before the one that is cut short are laid out whole.
  lemma WhyRefused(extradata: Option<Bytes>)
    ensures Parsed(extradata) == Err(MissingExtradata) <==> extradata.None? || |extradata.value| < 7
    ensures Parsed(extradata) == Err(UnsupportedExtradata) <==>
              extradata.Some? && |extradata.value| >= 7 && extradata.value[0] != 1
    ensures Parsed(extradata) == Err(TruncatedSpsLength) || Parsed(extradata) == Err(TruncatedSpsNal) ==>
              var e, sps := extradata.value, SpsParse(extradata.value);
              && |sps.units| < e[5] % 32 && AllSized(sps.units, 2) && e[6..] == Framed(sps.units, 2) + sps.tail
              && CutShort(sps.tail, Parsed(extradata) == Err(TruncatedSpsLength))
    ensures Parsed(extradata) == Err(MissingPpsCount) ==>
              var e, sps := extradata.value, SpsParse(extradata.value);
              |sps.units| == e[5] % 32 && e[6..] == Framed(sps.units, 2)
    ensures Parsed(extradata) == Err(TruncatedPpsLength) || Parsed(extradata) == Err(TruncatedPpsNal) ==>
              var rest := SpsParse(extradata.value).tail;
              && rest != [] && |PpsParse(rest).units| < rest[0] && AllSized(PpsParse(rest).units, 2)
              && rest[1..] == Framed(PpsParse(rest).units, 2) + PpsParse(rest).tail
              && CutShort(PpsParse(rest).tail, Parsed(extradata) == Err(TruncatedPpsLength))
  {
    if extradata.Some? && |extradata.value| >= 7 {
      var e := extradata.value;
      FramedOfUnits(e[6..], LENGTH_WIDTH, e[5] % 32);
      var sps := SpsParse(e);
      if sps.tail != [] { FramedOfUnits(sps.tail[1..], LENGTH_WIDTH, sps.tail[0]); }
    }
  }

  // The round trip through the serialized record.
  lemma RoundTrip(profile: Byte, compatibility: Byte, level: Byte, c: Config, extension: Bytes)
    requires 1 <= c.lengthSize <= 4 && |c.sps| < 32 && |c.pps| < 256
    requires forall i :: 0 <= i < |c.sps| ==> 1 <= |c.sps[i]| <= 65535
    requires forall i :: 0 <= i < |c.pps| ==> 1 <= |c.pps[i]| <= 65535
    ensures Parsed(Some(Serialized(profile, compatibility, level, c, extension))) == Ok(c)
  {
    var e := Serialized(profile, compatibility, level, c, extension);
    assert Power256(LENGTH_WIDTH) == 65536 by { assert Power256(1) == 256; }
    assert e[6..] == Sets(c.sps, c.pps, extension);
    RecordIsParsed(e, c, extension);
  }
}
