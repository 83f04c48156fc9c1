/** The RTP timestamps of the H.264 path: the Sender that accepts frames (cast/streaming/public/sender.cc), the
    MediaCodec encoder (cast/standalone_sender/streaming_mediacodec_encoder.cc) and the passthrough adjustment
    (cast/standalone_sender/controllable_file_sender.cc). What the codec and the network do is an input of each
    step. The codec gives back no more frames than it was given. */
module RtpPath {
  import opened Basics
  import opened RtpTime

  ghost predicate Increasing(s: seq<int>) {
    forall i, j :: 0 <= i < j < |s| ==> s[i] < s[j]
  }

  ghost predicate AtMost(s: seq<int>, bound: int) {
    forall i :: 0 <= i < |s| ==> s[i] <= bound
  }

  // ---------- The Sender

  // The RTP timestamps of all frames accepted so far.
  datatype Sender = Sender(timebase: int, accepted: seq<int>) {
    predicate NoFrameYet() { accepted == [] }

    function LastTimestamp(): int {
      if accepted == [] then 0 else accepted[|accepted| - 1]
    }

    // What EnqueueFrame checks of its caller.
    predicate MayEnqueue(rtp: int) { NoFrameYet() || rtp > LastTimestamp() }

    // Whether the Sender takes the frame is up to the network.
    function Enqueue(rtp: int, ok: bool): Sender
      requires MayEnqueue(rtp)
    {
      if ok then this.(accepted := accepted + [rtp]) else this
    }
  }

  const VIDEO_TIMEBASE: int := 90_000
  const DEFAULT_STEP: int := 33_000

  // A frame of the default duration advances the timestamp from sixteen ticks a second on.
  lemma StepIsPositive(timebase: int)
    requires timebase > 0
    ensures FromDuration(DEFAULT_STEP, timebase) >= 1 <==> timebase >= 16
    ensures FromDuration(DEFAULT_STEP, timebase) >= 0
  {
    assert FromDuration(DEFAULT_STEP, timebase) == (66_000 * timebase + 1_000_000) / 2_000_000;
  }

  // ---------- Passthrough

  // GetAdjustedPassthroughRtpTimestamp: the timestamp, and the offset it leaves.
  function Adjusted(sender: Sender, offset: int, mediaTime: int): (r: (int, int))
    requires sender.timebase > 0
    ensures sender.MayEnqueue(r.0)
    ensures r.1 >= offset && r.0 == FromDuration(mediaTime, sender.timebase) + r.1
    ensures r.1 > offset ==> r.0 == sender.LastTimestamp() + 1
  {
    var raw := FromDuration(mediaTime, sender.timebase);
    if sender.NoFrameYet() || raw + offset > sender.LastTimestamp() then (raw + offset, offset)
    else (sender.LastTimestamp() + 1, sender.LastTimestamp() - raw + 1)
  }

  // ---------- The encoder

  datatype Encoder = Encoder(
    sender: Option<Sender>,
    start: Option<int>,         // the time of RTP timestamp zero
    lastEnqueued: int,
    pending: seq<int>,          // timestamps of frames given to the codec
    posted: seq<int>,           // timestamps of encoded frames on their way through the task runner
    inCodec: nat)               // frames the codec has not given back

  function NewEncoder(sender: Sender): Encoder {
    Encoder(Some(sender), None, 0, [], [], 0)
  }

  // What becomes of a frame that got a timestamp.
  datatype Input =
    | NoBuffer            // no input buffer, or one that is too small
    | Buffered            // given to the codec
    | SurfaceFailed       // the surface could not be drawn on
    | SurfaceSwapped      // drawn and given to the codec
    | SwapFailed          // drawn but not given to the codec; the oldest pending timestamp is dropped

  // The timestamp of a frame, or none if it must be dropped, and the timeline it leaves.
  function Stamped(e: Encoder, reference: int, duration: int): (r: (Encoder, Option<int>))
    requires e.sender.Some? && e.sender.value.timebase > 0
  {
    var sender := e.sender.value;
    if e.start.None? then
      var step := FromDuration(if duration > 0 then duration else DEFAULT_STEP, sender.timebase);
      if sender.NoFrameYet() then (e.(start := Some(reference), lastEnqueued := 0), Some(0))
      else
        var rtp := sender.LastTimestamp() + step;
        (e.(start := Some(reference - ToDuration(rtp, sender.timebase)), lastEnqueued := sender.LastTimestamp()),
            Some(rtp))
    else
      var rtp := FromDuration(reference - e.start.value, sender.timebase);
      (e, if rtp <= e.lastEnqueued then None else Some(rtp))
  }

  // Too much is in flight: the timeline is set so that this moment continues it.
  function Resynced(e: Encoder, reference: int): Encoder
    requires e.sender.Some? && e.sender.value.timebase > 0
  {
    e.(start := Some(reference - ToDuration(e.lastEnqueued, e.sender.value.timebase)))
  }

  function Submitted(e: Encoder, rtp: int, input: Input): Encoder {
    match input
    case NoBuffer => e
    case Buffered => e.(pending := e.pending + [rtp], inCodec := e.inCodec + 1, lastEnqueued := rtp)
    case SurfaceFailed => e.(lastEnqueued := rtp)
    case SurfaceSwapped => e.(pending := e.pending + [rtp], inCodec := e.inCodec + 1, lastEnqueued := rtp)
    case SwapFailed => e.(pending := (e.pending + [rtp])[1..], lastEnqueued := rtp)
  }

  // EncodeAndSend, once a codec is configured.
  function Encoded(e: Encoder, reference: int, duration: int, tooMuchInFlight: bool, input: Input): Encoder
    requires e.sender.Some? && e.sender.value.timebase > 0
  {
    var (stamped, rtp) := Stamped(e, reference, duration);
    if rtp.None? then stamped
    else if tooMuchInFlight then Resynced(stamped, reference)
    else Submitted(stamped, rtp.value, input)
  }

  // ConfigureEncoder replaces the codec, and what was in it is gone; the pending timestamps stay.
  function Reconfigured(e: Encoder): Encoder { e.(inCodec := 0) }

  // The output thread takes a frame from the codec and posts it, with the oldest pending timestamp; were
  // there none, the timestamp would be worked out from the codec's presentation time. An empty output
  // is not posted.
  function Output(e: Encoder, presentation: int, empty: bool): Encoder
    requires e.inCodec > 0 && e.sender.Some? && e.sender.value.timebase > 0
  {
    var a := e.(inCodec := e.inCodec - 1);
    if empty then a
    else if e.pending != [] then a.(pending := e.pending[1..], posted := e.posted + [e.pending[0]])
    else
      var start := if e.start.Some? then e.start.value else 0;
      a.(posted := e.posted + [FromDuration(presentation - start, e.sender.value.timebase)])
  }

  // SendEncodedFrame, run by the task runner.
  function Delivered(e: Encoder, ok: bool): Encoder
    requires e.posted != [] && e.sender.Some? && e.sender.value.MayEnqueue(e.posted[0])
  {
    e.(sender := Some(e.sender.value.Enqueue(e.posted[0], ok)), posted := e.posted[1..])
  }

  // ReleaseSender: everything on its way is dropped.
  function Released(e: Encoder): (r: (Encoder, Option<Sender>)) {
    (Encoder(None, None, 0, [], [], 0), e.sender)
  }

  // ---------- What the encoder keeps

  ghost function Stream(e: Encoder): seq<int>
    requires e.sender.Some?
  {
    e.sender.value.accepted + (e.posted + e.pending)
  }

  // Accepted, posted and pending timestamps are one increasing sequence, and none is above the last one
  // given to the codec.
  ghost predicate EncoderInv(e: Encoder) {
    && e.sender.Some? && e.sender.value.timebase > 0
    && Increasing(Stream(e))
    && (if e.start.Some? then AtMost(Stream(e), e.lastEnqueued) else e.posted + e.pending == [])
    && e.inCodec <= |e.pending|
  }

  lemma Extended(s: seq<int>, x: int)
    requires Increasing(s) && (s == [] || s[|s| - 1] < x)
    ensures Increasing(s + [x]) && AtMost(s, x - 1) && AtMost(s + [x], x)
  {
  }

  lemma LastIsMost(s: seq<int>)
    requires Increasing(s) && s != []
    ensures AtMost(s, s[|s| - 1])
  {
  }

  // Leaving out one element.
  lemma Without(a: seq<int>, x: int, b: seq<int>, bound: int)
    requires Increasing(a + ([x] + b))
    ensures Increasing(a + b) && Increasing(a) && (a == [] || a[|a| - 1] < x)
    ensures AtMost(a + ([x] + b), bound) ==> AtMost(a + b, bound)
  {
    var s, t := a + ([x] + b), a + b;
    forall i, j | 0 <= i < j < |t| ensures t[i] < t[j] {
      var p, q := if i < |a| then i else i + 1, if j < |a| then j else j + 1;
      assert t[i] == s[p] && t[j] == s[q];
    }
    forall i, j | 0 <= i < j < |a| ensures a[i] < a[j] { assert s[i] == a[i] && s[j] == a[j]; }
    if a != [] { assert s[|a| - 1] == a[|a| - 1] && s[|a|] == x; }
    if AtMost(s, bound) {
      forall i | 0 <= i < |t| ensures t[i] <= bound { assert t[i] == s[if i < |a| then i else i + 1]; }
    }
  }

  lemma PrefixIncreasing(a: seq<int>, b: seq<int>)
    requires Increasing(a + b)
    ensures Increasing(a)
  {
    forall i, j | 0 <= i < j < |a| ensures a[i] < a[j] { assert (a + b)[i] == a[i] && (a + b)[j] == a[j]; }
  }

  // The sender comes to a new encoder, and goes from any, with increasing timestamps.
  lemma NewEncoderKeeps(sender: Sender)
    requires sender.timebase > 0 && Increasing(sender.accepted)
    ensures EncoderInv(NewEncoder(sender))
  {
    Regroup(sender.accepted, [], []);
  }

  lemma AcceptedIncreasing(e: Encoder)
    requires EncoderInv(e)
    ensures Increasing(e.sender.value.accepted)
  {
    PrefixIncreasing(e.sender.value.accepted, e.posted + e.pending);
  }

  function Step(timebase: int, duration: int): int
    requires timebase > 0
  {
    FromDuration(if duration > 0 then duration else DEFAULT_STEP, timebase)
  }

  lemma StepNotNegative(timebase: int, duration: int)
    requires timebase > 0
    ensures Step(timebase, duration) >= 0
  {
    var d := if duration > 0 then duration else DEFAULT_STEP;
    assert d * timebase > 0;
  }

  // The first frame after a handoff, of a duration that rounds to no tick: its timestamp would be the last
  // one over again.
  predicate Repeats(e: Encoder, duration: int)
    requires e.sender.Some? && e.sender.value.timebase > 0
  {
    e.start.None? && !e.sender.value.NoFrameYet() && Step(e.sender.value.timebase, duration) < 1
  }

  // The first timestamp after a handoff meets the Sender's check if and only if the frame lasts a tick.
  lemma HandoffStamp(e: Encoder, reference: int, duration: int)
    requires EncoderInv(e) && e.start.None? && !e.sender.value.NoFrameYet()
    ensures Stamped(e, reference, duration).1 ==
              Some(e.sender.value.LastTimestamp()
                   + FromDuration(if duration > 0 then duration else 33_000, e.sender.value.timebase))
    ensures e.sender.value.MayEnqueue(Stamped(e, reference, duration).1.value)
            <==> Step(e.sender.value.timebase, duration) >= 1
  {
  }

  // The first timestamp of all is zero, and on a running timeline a frame is dropped exactly if its time is not
  // after the last one.
  lemma OtherStamps(e: Encoder, reference: int, duration: int)
    requires EncoderInv(e)
    ensures e.start.None? && e.sender.value.NoFrameYet() ==> Stamped(e, reference, duration).1 == Some(0)
    ensures e.start.Some? ==>
              var rtp := FromDuration(reference - e.start.value, e.sender.value.timebase);
              Stamped(e, reference, duration).1 == if rtp > e.lastEnqueued then Some(rtp) else None
  {
  }

  // The frames this repository sends last 33 ms, on a timebase of 90000: they always do.
  lemma OwnFramesLastATick()
    ensures Step(VIDEO_TIMEBASE, DEFAULT_STEP) == 2970
  {
  }

  lemma NothingOnItsWay(e: Encoder)
    requires e.sender.Some? && e.posted + e.pending == []
    ensures Stream(e) == e.sender.value.accepted
  {
    Regroup(e.sender.value.accepted, [], []);
  }

  // Otherwise a timestamp is above everything before it, or it is the first of all.
  lemma StampedKeeps(e: Encoder, reference: int, duration: int)
    requires EncoderInv(e)
    ensures var (a, rtp) := Stamped(e, reference, duration);
            && a == e.(start := a.start, lastEnqueued := a.lastEnqueued) && EncoderInv(a) && a.start.Some?
            && (rtp.Some? && !Repeats(e, duration) ==> Stream(a) == [] || Stream(a)[|Stream(a)| - 1] < rtp.value)
            && (Repeats(e, duration)
                ==> rtp.Some? && Stream(a) != [] && Stream(a)[|Stream(a)| - 1] == rtp.value == a.lastEnqueued)
  {
    StepNotNegative(e.sender.value.timebase, duration);
    if e.start.None? {
      NothingOnItsWay(e);
      if !e.sender.value.NoFrameYet() { LastIsMost(e.sender.value.accepted); }
    }
  }

  lemma SubmittedKeeps(e: Encoder, rtp: int, input: Input)
    requires EncoderInv(e) && e.start.Some? && (Stream(e) == [] || Stream(e)[|Stream(e)| - 1] < rtp)
    ensures EncoderInv(Submitted(e, rtp, input))
  {
    Extended(Stream(e), rtp);
    RegroupFour(e.sender.value.accepted, e.posted, e.pending, [rtp]);
    if input.SwapFailed? {
      var all := e.pending + [rtp];
      assert all == [all[0]] + all[1..];
      RegroupFour(e.sender.value.accepted, e.posted, [all[0]], all[1..]);
      RegroupFour(e.sender.value.accepted, e.posted, [], all[1..]);
      var before := e.sender.value.accepted + e.posted;
      assert before + ([all[0]] + all[1..]) == e.sender.value.accepted + (e.posted + all);
      Without(before, all[0], all[1..], rtp);
      assert before + all[1..] == e.sender.value.accepted + (e.posted + all[1..]);
    }
  }

  // A repeated timestamp given to the codec breaks the order; one that is not does no harm.
  lemma RepeatedBreaks(e: Encoder, rtp: int, input: Input)
    requires EncoderInv(e) && e.start.Some? && e.pending == [] && Stream(e) != []
    requires Stream(e)[|Stream(e)| - 1] == rtp == e.lastEnqueued
    ensures EncoderInv(Submitted(e, rtp, input)) <==> !GivenToCodec(input)
  {
    var s := Stream(e);
    if GivenToCodec(input) {
      var t := Stream(Submitted(e, rtp, input));
      RegroupFour(e.sender.value.accepted, e.posted, e.pending, [rtp]);
      assert t == s + [rtp];
      assert t[|s| - 1] == t[|s|];
    } else if input.SwapFailed? {
      assert (e.pending + [rtp])[1..] == e.pending;
    }
  }

  predicate GivenToCodec(input: Input) { input.Buffered? || input.SurfaceSwapped? }

  // Encoding a frame keeps the order exactly unless it gives the codec a repeated timestamp.
  lemma EncodedKeeps(e: Encoder, reference: int, duration: int, tooMuchInFlight: bool, input: Input)
    requires EncoderInv(e)
    ensures EncoderInv(Encoded(e, reference, duration, tooMuchInFlight, input))
            <==> !(Repeats(e, duration) && !tooMuchInFlight && GivenToCodec(input))
  {
    StampedKeeps(e, reference, duration);
    var (a, rtp) := Stamped(e, reference, duration);
    if Repeats(e, duration) {
      assert a.pending == [] by { assert |e.posted + e.pending| == 0; }
      RepeatedBreaks(a, rtp.value, input);
    } else if rtp.Some? {
      SubmittedKeeps(a, rtp.value, input);
    }
  }

  // A posted timestamp is always a pending one: the presentation time is never used.
  lemma OutputKeeps(e: Encoder, presentation: int, empty: bool)
    requires EncoderInv(e) && e.inCodec > 0
    ensures EncoderInv(Output(e, presentation, empty))
    ensures Output(e, presentation, false).posted == e.posted + [e.pending[0]]
  {
    assert e.pending == [e.pending[0]] + e.pending[1..];
    assert (e.posted + [e.pending[0]]) + e.pending[1..] == e.posted + e.pending;
  }

  // The Sender's check on timestamps holds for every encoded frame.
  lemma DeliveredKeeps(e: Encoder, ok: bool)
    requires EncoderInv(e) && e.posted != []
    ensures e.sender.value.MayEnqueue(e.posted[0])
    ensures EncoderInv(Delivered(e, ok))
  {
    var accepted, x, rest := e.sender.value.accepted, e.posted[0], e.posted[1..] + e.pending;
    assert e.posted + e.pending == [x] + rest;
    Without(accepted, x, rest, e.lastEnqueued);
    assert accepted + ([x] + rest) == (accepted + [x]) + rest;
  }

  lemma ReleasedKeeps(e: Encoder)
    requires EncoderInv(e)
    ensures Released(e).1.Some? && Released(e).1.value == e.sender.value && Increasing(Released(e).1.value.accepted)
  {
    AcceptedIncreasing(e);
  }

  lemma PassthroughKeeps(sender: Sender, offset: int, mediaTime: int, ok: bool)
    requires sender.timebase > 0 && Increasing(sender.accepted)
    ensures Increasing(sender.Enqueue(Adjusted(sender, offset, mediaTime).0, ok).accepted)
  {
    Extended(sender.accepted, Adjusted(sender, offset, mediaTime).0);
  }

  // ---------- Timestamps keep pace with the clock

  // `next` is `elapsed` microseconds after `rtp`, to within one half of a tick and one of a microsecond.
  predicate InStep(timebase: int, rtp: int, elapsed: int, next: int) {
    -(ONE_SECOND + timebase) <= 2 * (ONE_SECOND * (next - rtp) - elapsed * timebase) <= ONE_SECOND + timebase
  }

  // A timeline that puts `rtp` at the time `reference`.
  function TimelineFor(timebase: int, rtp: int, reference: int): int
    requires timebase > 0
  {
    reference - ToDuration(rtp, timebase)
  }

  // What such a timeline gives a later time is in step with the time elapsed.
  lemma TimelineInStep(timebase: int, rtp: int, reference: int, later: int)
    requires timebase > 0
    ensures InStep(timebase, rtp, later - reference,
            FromDuration(later - TimelineFor(timebase, rtp, reference), timebase))
  {
    var t, d := ToDuration(rtp, timebase), later - reference;
    var next := FromDuration(d + t, timebase);
    NearestIsClosest(rtp * ONE_SECOND, timebase);
    NearestIsClosest((d + t) * timebase, ONE_SECOND);
    Distribute(d, t, timebase);
    TwoRoundings(rtp * ONE_SECOND, timebase * t, d * timebase, ONE_SECOND * next, timebase);
    assert later - TimelineFor(timebase, rtp, reference) == d + t;
  }

  lemma Distribute(d: int, t: int, timebase: int)
    ensures (d + t) * timebase == d * timebase + timebase * t
  {
  }

  lemma TwoRoundings(exact: int, rounded: int, elapsed: int, next: int, timebase: int)
    requires -timebase <= 2 * (exact - rounded) <= timebase
    requires -ONE_SECOND <= 2 * (elapsed + rounded - next) <= ONE_SECOND
    ensures -(ONE_SECOND + timebase) <= 2 * (next - exact - elapsed) <= ONE_SECOND + timebase
  {
  }

  // Something that is in step and more than about half a tick later has a greater timestamp.
  lemma InStepIsLater(timebase: int, rtp: int, elapsed: int, next: int)
    requires timebase > 0 && InStep(timebase, rtp, elapsed, next) && 2 * elapsed * timebase > ONE_SECOND + timebase
    ensures next > rtp
  {
  }

  // After the first timestamp of a stream or of a handoff, a frame `later` is stamped in step with the time in
  // between, and is not dropped once that is about half a tick.
  lemma FirstStampSetsPace(e: Encoder, reference: int, duration: int, later: int)
    requires e.sender.Some? && e.sender.value.timebase > 0 && e.start.None?
    ensures var (a, rtp) := Stamped(e, reference, duration);
            var b := a.(lastEnqueued := if rtp.Some? then rtp.value else a.lastEnqueued);
            var next := Stamped(b, later, duration).1;
            var timebase := e.sender.value.timebase;
            && rtp.Some? && b.start.Some?
            && (next.Some? ==> InStep(timebase, rtp.value, later - reference, next.value))
            && (2 * (later - reference) * timebase > ONE_SECOND + timebase ==> next.Some?)
  {
    var timebase := e.sender.value.timebase;
    var (a, rtp) := Stamped(e, reference, duration);
    TickLasts(timebase);
    assert a.start.value == TimelineFor(timebase, rtp.value, reference);
    TimelineInStep(timebase, rtp.value, reference, later);
    var next := FromDuration(later - a.start.value, timebase);
    if 2 * (later - reference) * timebase > ONE_SECOND + timebase {
      InStepIsLater(timebase, rtp.value, later - reference, next);
    }
  }

  // After a re-sync the last timestamp given to the codec belongs to the moment of the re-sync.
  lemma ResyncSetsPace(e: Encoder, reference: int, duration: int, later: int)
    requires e.sender.Some? && e.sender.value.timebase > 0
    ensures var a := Resynced(e, reference);
            var next := Stamped(a, later, duration).1;
            var timebase := e.sender.value.timebase;
            && a == e.(start := a.start) && a.start.Some?
            && (next.Some? ==> InStep(timebase, e.lastEnqueued, later - reference, next.value))
            && (2 * (later - reference) * timebase > ONE_SECOND + timebase ==> next.Some?)
  {
    var timebase := e.sender.value.timebase;
    TimelineInStep(timebase, e.lastEnqueued, reference, later);
    var next := FromDuration(later - Resynced(e, reference).start.value, timebase);
    if 2 * (later - reference) * timebase > ONE_SECOND + timebase {
      InStepIsLater(timebase, e.lastEnqueued, later - reference, next);
    }
  }

  // On a running timeline any two timestamps are apart by the time between them, to within a tick.
  lemma StampsKeepPace(e: Encoder, reference: int, later: int, duration: int)
    requires e.sender.Some? && e.sender.value.timebase > 0 && e.start.Some?
    requires Stamped(e, reference, duration).1.Some? && Stamped(e, later, duration).1.Some?
    ensures var first, second := Stamped(e, reference, duration).1.value, Stamped(e, later, duration).1.value;
            var elapsed := (later - reference) * e.sender.value.timebase;
            -ONE_SECOND <= ONE_SECOND * (second - first) - elapsed <= ONE_SECOND
  {
    var start, timebase := e.start.value, e.sender.value.timebase;
    NearestIsClosest((reference - start) * timebase, ONE_SECOND);
    NearestIsClosest((later - start) * timebase, ONE_SECOND);
    assert (later - start) * timebase == (reference - start) * timebase + (later - reference) * timebase;
  }

  // ---------- Frames are not lost on the way

  // What is given to the codec ends the stream, what the codec puts out and the Sender accepts stays in it,
  // and only a frame the Sender rejects or a failed swap leaves it.
  lemma FramesConserved(e: Encoder, rtp: int, input: Input, presentation: int, ok: bool)
    requires e.sender.Some? && e.sender.value.timebase > 0
    ensures GivenToCodec(input) ==> Stream(Submitted(e, rtp, input)) == Stream(e) + [rtp]
    ensures input.NoBuffer? || input.SurfaceFailed? ==> Stream(Submitted(e, rtp, input)) == Stream(e)
    ensures Submitted(e, rtp, input).lastEnqueued == if input.NoBuffer? then e.lastEnqueued else rtp
    ensures e.inCodec > 0 && e.pending != [] ==> Stream(Output(e, presentation, false)) == Stream(e)
    ensures e.inCodec > 0 ==> Stream(Output(e, presentation, true)) == Stream(e)
    ensures e.posted != [] && e.sender.value.MayEnqueue(e.posted[0]) ==>
              Delivered(e, true).sender.value.accepted == e.sender.value.accepted + [e.posted[0]]
              && Stream(Delivered(e, true)) == Stream(e)
    ensures e.posted != [] && e.sender.value.MayEnqueue(e.posted[0]) ==>
              Delivered(e, false).sender == e.sender && Delivered(e, false).posted == e.posted[1..]
  {
    RegroupFour(e.sender.value.accepted, e.posted, e.pending, [rtp]);
    if e.pending != [] { OldestPosted(e); }
    if e.posted != [] { OldestAccepted(e); }
  }

  lemma OldestPosted(e: Encoder)
    requires e.sender.Some? && e.pending != []
    ensures e.sender.value.accepted + ((e.posted + [e.pending[0]]) + e.pending[1..]) == Stream(e)
  {
    assert e.pending == [e.pending[0]] + e.pending[1..];
    Regroup(e.posted, [e.pending[0]], e.pending[1..]);
  }

  lemma OldestAccepted(e: Encoder)
    requires e.sender.Some? && e.posted != []
    ensures (e.sender.value.accepted + [e.posted[0]]) + (e.posted[1..] + e.pending) == Stream(e)
  {
    var x, more := [e.posted[0]], e.posted[1..] + e.pending;
    assert e.posted + e.pending == x + more;
    Regroup(e.sender.value.accepted, x, more);
  }
}
