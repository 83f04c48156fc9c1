/** The H.264 encoder as an object (cast/standalone_sender/streaming_mediacodec_encoder.cc): its timeline, the
    timestamps of the frames in the codec, and those posted to the task runner. Only timestamps are
    modelled of a frame. */
module MediaCodecEncoders {
  import opened Basics
  import opened RtpTime
  import opened RtpPath

  class MediaCodecEncoder {
    var sender: Option<Sender>
    var startTime: Option<int>
    var lastEnqueuedRtpTimestamp: int
    var pendingMeta: seq<int>
    var posted: seq<int>
    ghost var inCodec: nat

    ghost function Snapshot(): Encoder
      reads this
    {
      Encoder(sender, startTime, lastEnqueuedRtpTimestamp, pendingMeta, posted, inCodec)
    }

    ghost predicate Valid()
      reads this
    {
      EncoderInv(Snapshot())
    }

    constructor (sender: Sender)
      ensures Snapshot() == NewEncoder(sender)
      ensures sender.timebase > 0 && Increasing(sender.accepted) ==> Valid()
    {
      this.sender := Some(sender);
      startTime, lastEnqueuedRtpTimestamp := None, 0;
      pendingMeta, posted, inCodec := [], [], 0;
      new;
      if sender.timebase > 0 && Increasing(sender.accepted) { NewEncoderKeeps(sender); }
    }

    method StampFrame(reference: int, duration: int) returns (rtp: Option<int>)
      requires sender.Some? && sender.value.timebase > 0
      modifies this`startTime, this`lastEnqueuedRtpTimestamp
      ensures (Snapshot(), rtp) == Stamped(old(Snapshot()), reference, duration)
    {
      var timebase := sender.value.timebase;
      if startTime.None? {
        var frameStep := FromDuration(if duration > 0 then duration else DEFAULT_STEP, timebase);
        if sender.value.NoFrameYet() {
          startTime := Some(reference);
          lastEnqueuedRtpTimestamp := 0;
          return Some(0);
        }
        lastEnqueuedRtpTimestamp := sender.value.LastTimestamp();
        var timestamp := lastEnqueuedRtpTimestamp + frameStep;
        startTime := Some(reference - ToDuration(timestamp, timebase));
        return Some(timestamp);
      }
      var timestamp := FromDuration(reference - startTime.value, timebase);
      if timestamp <= lastEnqueuedRtpTimestamp {
        return None;
      }
      rtp := Some(timestamp);
    }

    method SubmitFrame(rtp: int, input: Input)
      modifies this
      ensures Snapshot() == Submitted(old(Snapshot()), rtp, input)
    {
      match input {
        case NoBuffer => return;
        case SurfaceFailed =>
        case SwapFailed =>
          pendingMeta := pendingMeta + [rtp];
          pendingMeta := pendingMeta[1..];
        case Buffered =>
          pendingMeta := pendingMeta + [rtp];
          inCodec := inCodec + 1;
        case SurfaceSwapped =>
          pendingMeta := pendingMeta + [rtp];
          inCodec := inCodec + 1;
      }
      lastEnqueuedRtpTimestamp := rtp;
    }

    method EncodeAndSend(reference: int, duration: int, tooMuchInFlight: bool, input: Input)
      requires Valid()
      modifies this
      ensures Snapshot() == Encoded(old(Snapshot()), reference, duration, tooMuchInFlight, input)
              && sender == old(sender)
      ensures Valid() <==> !(old(Repeats(Snapshot(), duration)) && !tooMuchInFlight && GivenToCodec(input))
    {
      EncodedKeeps(Snapshot(), reference, duration, tooMuchInFlight, input);
      var rtp := StampFrame(reference, duration);
      if rtp.None? {
        return;
      }
      if tooMuchInFlight {
        startTime := Some(reference - ToDuration(lastEnqueuedRtpTimestamp, sender.value.timebase));
        return;
      }
      SubmitFrame(rtp.value, input);
    }

    method ConfigureEncoder()
      requires Valid()
      modifies this`inCodec
      ensures Valid() && Snapshot() == Reconfigured(old(Snapshot()))
    {
      inCodec := 0;
    }

    // One round of the output thread.
    method OutputFrame(presentation: int, empty: bool)
      requires Valid() && inCodec > 0
      modifies this
      ensures Valid() && Snapshot() == Output(old(Snapshot()), presentation, empty)
      ensures !empty ==> posted == old(posted + [pendingMeta[0]])
    {
      OutputKeeps(Snapshot(), presentation, empty);
      TakeOutput(presentation, empty);
    }

    method TakeOutput(presentation: int, empty: bool)
      requires sender.Some? && sender.value.timebase > 0 && inCodec > 0
      modifies this
      ensures Snapshot() == Output(old(Snapshot()), presentation, empty)
    {
      inCodec := inCodec - 1;
      if empty {
        return;
      }
      var rtp;
      if pendingMeta != [] {
        rtp := pendingMeta[0];
        pendingMeta := pendingMeta[1..];
      } else {
        rtp := FromDuration(presentation - (if startTime.Some? then startTime.value else 0), sender.value.timebase);
      }
      posted := posted + [rtp];
    }

    // The posted task. The Sender's own check on timestamps is met.
    method SendEncodedFrame(ok: bool)
      requires Valid() && posted != []
      modifies this
      ensures old(sender.value.MayEnqueue(posted[0]))
      ensures Valid() && Snapshot() == Delivered(old(Snapshot()), ok)
    {
      DeliveredKeeps(Snapshot(), ok);
      sender := Some(sender.value.Enqueue(posted[0], ok));
      posted := posted[1..];
    }

    method ReleaseSender() returns (released: Option<Sender>)
      modifies this
      ensures (Snapshot(), released) == Released(old(Snapshot()))
      ensures old(Valid()) ==> released.Some? && Increasing(released.value.accepted)
    {
      if EncoderInv(Snapshot()) { ReleasedKeeps(Snapshot()); }
      posted := [];
      pendingMeta := [];
      inCodec := 0;
      startTime := None;
      lastEnqueuedRtpTimestamp := 0;
      released := sender;
      sender := None;
    }
  }
}
