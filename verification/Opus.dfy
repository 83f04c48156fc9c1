/** The audio encoder as an object (cast/standalone_sender/streaming_opus_encoder.cc): a fixed buffer of one
    frame, refilled in place, and the timestamps of the next frame. */
module Opus {
  import opened Basics
  import opened RtpTime
  import opened OpusSpecs

  class StreamingOpusEncoder {
    const format: Format
    const input: array<real>
    var codecDelay: int
    var numSamplesQueued: nat
    var startTime: Option<int>
    var rtpTimestamp: int
    var referenceTime: int
    var lastSentReferenceTime: int
    ghost var entries: seq<Entry>
    ghost var received: seq<real>

    ghost predicate Fits()
      reads this
    {
      && format.Valid() && input.Length == format.Elements(format.FrameTuples())
      && numSamplesQueued <= format.FrameTuples() && format.Elements(numSamplesQueued) <= input.Length
    }

    ghost function Snapshot(): State
      reads this, input
      requires Fits()
    {
      State(startTime, codecDelay, rtpTimestamp, referenceTime, lastSentReferenceTime, numSamplesQueued,
            input[..format.Elements(numSamplesQueued)], entries, received)
    }

    ghost predicate Valid()
      reads this, input
    {
      Fits() && Inv(format, Snapshot())
    }

    constructor (format: Format, delay: int)
      requires format.Valid()
      ensures Valid() && fresh(input) && this.format == format && Snapshot() == Initial(delay)
    {
      this.format := format;
      input := new real[format.Elements(format.FrameTuples())];
      codecDelay, numSamplesQueued, startTime := delay, 0, None;
      rtpTimestamp, referenceTime, lastSentReferenceTime := 0, 0, 0;
      entries, received := [], [];
      new;
      assert Samples([]) == [];
    }

    // UseStandardQuality and UseHighQuality; the library reports the delay.
    method UpdateCodecDelay(delay: int)
      requires Valid()
      modifies this`codecDelay
      ensures Valid() && Snapshot() == Next(format, old(Snapshot()), ChangeCodecDelay(delay))
    {
      codecDelay := delay;
    }

    method ResolveTimestampsAndMaybeSkip(time: int)
      requires Fits()
      modifies this
      ensures Fits() && Snapshot() == Resolved(format, old(Snapshot()), time)
      ensures input[..] == old(input[..])
    {
      var reference := time - codecDelay;
      if startTime.None? {
        rtpTimestamp := 0;
        startTime := Some(reference);
        referenceTime := reference;
        lastSentReferenceTime := reference - format.FrameDuration();
        return;
      }
      format.RateIsPositive();
      var currentPosition := rtpTimestamp + numSamplesQueued;
      var referencePosition := FromDuration(reference - startTime.value, format.sampleRate);
      if referencePosition - currentPosition > format.FrameTuples() * MAX_FRAMES_BEFORE_SKIP {
        entries := entries + [Skip(rtpTimestamp, referencePosition, input[..format.Elements(numSamplesQueued)])];
        numSamplesQueued := 0;
        rtpTimestamp := referencePosition;
      }
      reference := reference - ToDuration(numSamplesQueued, format.sampleRate);
      var lowerBound := lastSentReferenceTime + ToDuration(1, format.sampleRate);
      if reference < lowerBound {
        reference := lowerBound;
      }
      referenceTime := reference;
    }

    // Copies as many of the first `n` tuples as fit.
    method FillInputBuffer(x: seq<real>, n: nat) returns (copied: nat)
      requires Fits() && |x| == format.Elements(n)
      modifies this, input
      ensures Fits() && Taken(format, old(Snapshot()), n) == copied && format.Elements(copied) <= |x|
      ensures Snapshot() == Queued(format, old(Snapshot()), x[..format.Elements(copied)], copied)
    {
      var needed := format.FrameTuples() - numSamplesQueued;
      copied := if n < needed then n else needed;
      ElementsSplit(format, n, copied);
      ElementsSplit(format, numSamplesQueued + copied, copied);
      ElementsSplit(format, format.FrameTuples(), numSamplesQueued + copied);
      Copy(x[..format.Elements(copied)], input, format.Elements(numSamplesQueued));
      received := received + x[..format.Elements(copied)];
      numSamplesQueued := numSamplesQueued + copied;
    }

    method EmitFrame()
      requires Fits()
      modifies this
      ensures Fits() && Snapshot() == Emitted(format, old(Snapshot()))
      ensures input[..] == old(input[..])
    {
      entries := entries + [Frame(rtpTimestamp, referenceTime, input[..format.Elements(numSamplesQueued)])];
      numSamplesQueued := 0;
      lastSentReferenceTime := referenceTime;
      rtpTimestamp := rtpTimestamp + format.FrameTuples();
      referenceTime := referenceTime + format.FrameDuration();
    }

    method Feed(samples: seq<real>, n: nat)
      requires Fits() && numSamplesQueued < format.FrameTuples() && |samples| == format.Elements(n)
      modifies this, input
      ensures Fits() && Snapshot() == Fed(format, old(Snapshot()), samples, n)
    {
      var left: nat, x := n, samples;
      ghost var result := Fed(format, Snapshot(), samples, n);
      while left > 0
        invariant |x| == format.Elements(left)
        invariant Fits() && numSamplesQueued < format.FrameTuples()
        invariant Fed(format, Snapshot(), x, left) == result
        decreases left
      {
        FedStep(format, Snapshot(), x, left);
        var copied := FillInputBuffer(x, left);
        left := left - copied;
        x := x[format.Elements(copied)..];
        if numSamplesQueued < format.FrameTuples() {
          return;
        }
        EmitFrame();
      }
    }

    method EncodeAndSend(samples: seq<real>, n: nat, time: int)
      requires Valid() && n > 0 && |samples| == format.Elements(n)
      modifies this, input
      ensures Valid() && Snapshot() == Encoded(format, old(Snapshot()), samples, n, time)
      ensures Lag(format, Resolved(format, old(Snapshot()), time), time) <= SkipThreshold(format)
    {
      ResolvedKeeps(format, Snapshot(), time);
      NextKeeps(format, Snapshot(), Encode(samples, n, time));
      ResolveTimestampsAndMaybeSkip(time);
      Feed(samples, n);
    }
  }

  method Copy(x: seq<real>, to: array<real>, at: nat)
    requires at + |x| <= to.Length
    modifies to
    ensures to[..at + |x|] == old(to[..at]) + x
  {
    for i := 0 to |x|
      invariant to[..at + i] == old(to[..at]) + x[..i]
    {
      to[at + i] := x[i];
    }
  }
}
