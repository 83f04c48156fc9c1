/** The file sender (cast/standalone_sender/controllable_file_sender.cc) on the H.264 path, as steps of one
    state: which producer holds the one video Sender, which capturers are alive, and what is playing. Times
    and positions are microseconds; `now` is the clock a step reads. */
module FileSenderSpecs {
  import opened Basics
  import opened RtpTime
  import opened RtpPath

  datatype Viewport = Viewport(zoom: real, centerX: real, centerY: real)

  const WHOLE_FRAME := Viewport(1.0, 0.5, 0.5)

  datatype Packet = Packet(isKey: bool, mediaTime: int, reference: int)

  // How the Sender answers a passthrough frame.
  datatype Answer = Accepted | TooMuchInFlight | Failed

  // The two places the video Sender can be in: video_sender_ and video_encoder_.
  datatype Owners = Owners(sender: Option<Sender>, encoder: Option<Encoder>)

  datatype Settings = Settings(
    includeVideo: bool,
    delay: int,
    mediaDuration: int)              // not positive if unknown

  // Which capturers are alive, and how many have not ended.
  datatype Capturers = Capturers(audio: bool, video: bool, passthrough: bool, probe: bool, running: int)

  const NO_CAPTURERS := Capturers(false, false, false, false, 0)

  datatype Timeline = Timeline(start: int, lastKnown: int, playbackStart: int)

  datatype Mode = Mode(
    playing: bool,
    active: bool,                    // passthrough_active_
    backpressured: bool,
    reentryPending: bool)

  const NOT_PLAYING := Mode(false, false, false, false)

  datatype Alarms = Alarms(keepalive: bool, retry: bool)

  datatype State = State(
    settings: Settings,
    brightness: int,
    viewport: Viewport,
    canPassthrough: bool,
    owners: Owners,
    capturers: Capturers,
    timeline: Timeline,
    mode: Mode,
    alarms: Alarms,
    offset: int,                     // passthrough_rtp_offset_
    packet: Option<Packet>)

  // ---------- Reading the state

  function Clamped(s: State, position: int): int {
    if position < 0 then 0
    else if s.settings.mediaDuration > 0 && position > s.settings.mediaDuration then s.settings.mediaDuration
    else position
  }

  predicate Identity(v: Viewport) {
    && v.zoom <= 1.001
    && -0.000001 < v.centerX - 0.5 < 0.000001
    && -0.000001 < v.centerY - 0.5 < 0.000001
  }

  function ClampReal(x: real, low: real, high: real): real {
    if x < low then low else if x > high then high else x
  }

  function ClampedViewport(v: Viewport): Viewport {
    Viewport(ClampReal(v.zoom, 1.0, 8.0), ClampReal(v.centerX, 0.0, 1.0), ClampReal(v.centerY, 0.0, 1.0))
  }

  // Where the media is at a reference time.
  function PositionAt(s: State, time: int): int {
    Clamped(s, s.timeline.start + Max(time - s.timeline.playbackStart, 0))
  }

  function CurrentPosition(s: State, now: int): int {
    if s.mode.playing then PositionAt(s, now) else s.timeline.lastKnown
  }

  predicate CanStartPassthroughAt(s: State, position: int) {
    && s.settings.includeVideo && s.canPassthrough && s.brightness == 0
    && (s.owners.sender.Some? || s.owners.encoder.Some?)
    && Identity(s.viewport)
    && (s.settings.mediaDuration <= 0 || position < s.settings.mediaDuration)
  }

  // ---------- Internal steps

  function Stopped(s: State): State {
    s.(capturers := NO_CAPTURERS, packet := None, mode := NOT_PLAYING, alarms := Alarms(false, false))
  }

  // EnsureVideoEncoderCreated
  function Encoding(o: Owners): Owners {
    if o.encoder.Some? || o.sender.None? then o else Owners(None, Some(NewEncoder(o.sender.value)))
  }

  // ReclaimVideoSenderFromEncoder
  function Reclaimed(o: Owners): Owners {
    if o.encoder.None? then o else Owners(Released(o.encoder.value).1, None)
  }

  function WithEncoder(s: State): State { s.(owners := Encoding(s.owners)) }

  function At(s: State, position: int): State {
    s.(timeline := Timeline(Clamped(s, position), Clamped(s, position), s.timeline.playbackStart))
  }

  // StopCapturers, and the Sender back from the encoder where passthrough may follow.
  function Rewound(s: State, allowPassthrough: bool): State {
    var a := Stopped(s);
    if allowPassthrough && a.canPassthrough && Identity(a.viewport) && a.owners.sender.None?
        && a.owners.encoder.Some? then
      a.(owners := Reclaimed(a.owners))
    else a
  }

  // StartPlaybackAt
  function PlaybackStarted(s: State, position: int, allowPassthrough: bool, now: int): State {
    var a := At(Rewound(s, allowPassthrough), position);
    if a.settings.mediaDuration > 0 && a.timeline.start >= a.settings.mediaDuration then a
    else CapturersStarted(a, allowPassthrough, now)
  }

  function CapturersStarted(s: State, allowPassthrough: bool, now: int): State {
    var a := s.(timeline := s.timeline.(playbackStart := now + s.settings.delay));
    if allowPassthrough && CanStartPassthroughAt(a, a.timeline.start) then
      a.(capturers := Capturers(true, false, true, false, 2), mode := Mode(true, true, false, false))
    else if a.settings.includeVideo then
      WithEncoder(a).(capturers := Capturers(true, true, false, false, 2), mode := Mode(true, false, false, false))
    else a.(capturers := Capturers(true, false, false, false, 1), mode := Mode(true, false, false, false))
  }

  function KeepaliveScheduled(s: State): State { s.(alarms := s.alarms.(keepalive := !s.mode.playing)) }

  predicate Armed(s: State) {
    s.canPassthrough && Identity(s.viewport) && s.owners.sender.Some? && s.owners.encoder.None?
  }

  function PausedAt(s: State, position: int, now: int): State {
    s.(timeline := Timeline(Clamped(s, position), Clamped(s, position), now + s.settings.delay))
  }

  // StartPausedKeepaliveAt
  function PausedKeepalive(s: State, position: int, now: int): State
    decreases 1
  {
    var a := Stopped(s);
    if Armed(a) then
      KeepaliveScheduled(PausedAt(a, position, now))
    else
      KeepaliveSent(PausedAt(WithEncoder(a), position, now).(capturers := Capturers(false, true, false, false, 1)), now)
  }

  // SendPausedKeepaliveFrame. The frame itself comes later, from the capturer.
  function KeepaliveSent(s: State, now: int): State
    decreases if s.mode.playing || (!s.mode.active && s.capturers.video) then 0 else 3
  {
    if s.mode.playing then s
    else if s.mode.active then FellBack(s, s.timeline.lastKnown, false, false, now)
    else if !s.capturers.video then
      if s.canPassthrough && s.owners.encoder.None? then FellBack(s, s.timeline.lastKnown, false, false, now)
      else PausedKeepalive(s, s.timeline.lastKnown, now)
    else KeepaliveScheduled(s)
  }

  // FallbackToTranscode
  function FellBack(s: State, position: int, resume: bool, disable: bool, now: int): State
    decreases 2
  {
    if !s.canPassthrough then s
    else
      var a := WithEncoder(s.(canPassthrough := !disable, mode := s.mode.(active := false)));
      if resume then Resumed(a, position, disable, now) else PausedKeepalive(a, position, now)
  }

  function Resumed(s: State, position: int, disable: bool, now: int): State {
    var a := PlaybackStarted(s, position, false, now);
    if !disable && a.canPassthrough && Identity(a.viewport) then ProbeStarted(a) else a
  }

  // StartPassthroughReentryProbe
  function ProbeStarted(s: State): State {
    var armed := s.canPassthrough && Identity(s.viewport) && s.mode.playing
        && (s.owners.encoder.Some? || s.owners.sender.Some?);
    s.(capturers := s.capturers.(probe := armed), mode := s.mode.(reentryPending := armed))
  }

  // ---------- Controls

  function KnownAt(s: State, position: int): State { s.(timeline := s.timeline.(lastKnown := position)) }

  function Played(s: State, now: int): State {
    if s.mode.playing then s else PlaybackStarted(s, s.timeline.lastKnown, true, now)
  }

  function Paused(s: State, now: int): State {
    if s.mode.active then
      var a := KnownAt(s, CurrentPosition(s, now));
      FellBack(a, a.timeline.lastKnown, false, false, now)
    else if !s.mode.playing then KeepaliveScheduled(s)
    else KeepaliveScheduled(KnownAt(s, CurrentPosition(s, now)).(mode := s.mode.(playing := false)))
  }

  function SoughtTo(s: State, position: int, now: int): State {
    var a := KnownAt(s, Clamped(s, position));
    if a.mode.active then
      if CanStartPassthroughAt(a, a.timeline.lastKnown) then PlaybackStarted(a, a.timeline.lastKnown, true, now)
      else FellBack(a, a.timeline.lastKnown, a.mode.playing, false, now)
    else if a.mode.playing then PlaybackStarted(a, a.timeline.lastKnown, true, now)
    else if a.capturers.video then KeepaliveScheduled(a)
    else PausedKeepalive(a, a.timeline.lastKnown, now)
  }

  function Recovered(s: State, position: int, resume: bool, now: int): State {
    var a := KnownAt(s, Clamped(s, position));
    if resume then FellBack(a, a.timeline.lastKnown, true, false, now)
    else PausedKeepalive(a, a.timeline.lastKnown, now)
  }

  function ViewportSet(s: State, v: Viewport, now: int): State {
    var a := s.(viewport := ClampedViewport(v));
    if a.mode.active && !Identity(a.viewport) then FellBack(a, CurrentPosition(a, now), a.mode.playing, false, now)
    else a
  }

  function BrightnessSet(s: State, brightness: int, now: int): State {
    var a := s.(brightness := if brightness < -200 then -200 else if brightness > 200 then 200 else brightness);
    if a.mode.active && a.brightness != 0 then FellBack(a, CurrentPosition(a, now), a.mode.playing, false, now) else a
  }

  // ---------- Callbacks

  function Following(s: State, reference: int): State {
    if s.mode.playing then KnownAt(s, PositionAt(s, reference)) else s
  }

  // OnVideoFrame
  function FrameEncoded(s: State, reference: int, tooMuchInFlight: bool, input: Input): State
    requires s.owners.encoder.Some? && s.owners.encoder.value.sender.Some?
            && s.owners.encoder.value.sender.value.timebase > 0
  {
    WithCodec(Following(s, reference), Encoded(s.owners.encoder.value, reference, DEFAULT_STEP, tooMuchInFlight, input))
  }

  const MAX_REENTRY_PREROLL: int := 1_500_000

  predicate AcceptableReentry(s: State, p: Packet) {
    p.isKey && (p.mediaTime >= s.timeline.start || s.timeline.start - p.mediaTime <= MAX_REENTRY_PREROLL)
  }

  // OnVideoPacket
  function PacketReceived(s: State, p: Packet, answer: Answer, now: int): State
    requires s.owners.sender.Some? ==> s.owners.sender.value.timebase > 0
  {
    if s.mode.reentryPending && !s.mode.active then
      if AcceptableReentry(s, p) then PlaybackStarted(s, p.mediaTime, true, now) else s
    else Retried(s.(packet := Some(p)), answer, now)
  }

  // RetryPendingPassthroughPacket
  function Retried(s: State, answer: Answer, now: int): State
    requires s.owners.sender.Some? ==> s.owners.sender.value.timebase > 0
  {
    if s.packet.None? then s
    else if s.owners.sender.None? then FellBack(s.(packet := None), s.packet.value.mediaTime, true, true, now)
    else
      var p := s.packet.value;
      var a := Following(s.(alarms := s.alarms.(retry := false)), p.reference);
      var position := PositionAt(s, p.reference);
      if s.owners.sender.value.NoFrameYet() && !p.isKey then FellBack(a, position, true, true, now)
      else Answered(a, position, answer, now)
  }

  // The pending packet is offered to the Sender.
  function Answered(s: State, position: int, answer: Answer, now: int): State
    requires s.packet.Some? && s.owners.sender.Some? && s.owners.sender.value.timebase > 0
  {
    var (rtp, offset) := Adjusted(s.owners.sender.value, s.offset, s.packet.value.mediaTime);
    var a := s.(offset := offset,
        owners := s.owners.(sender := Some(s.owners.sender.value.Enqueue(rtp, answer == Accepted))));
    match answer
    case Accepted => a.(mode := a.mode.(backpressured := false), packet := None)
    case TooMuchInFlight => a.(mode := a.mode.(backpressured := true))
    case Failed => FellBack(a.(packet := None), position, a.mode.playing, true, now)
  }

  // OnEndOfFile of a decoding capturer, or of the passthrough capturer.
  function FileEnded(s: State, now: int): State {
    var a := s.(capturers := s.capturers.(running := s.capturers.running - 1));
    if a.capturers.running == 0 then
      var b := KnownAt(Stopped(a), a.settings.mediaDuration);
      PausedKeepalive(b, b.timeline.lastKnown, now)
    else a
  }

  // OnEndOfFile or OnError of the probe.
  function ProbeEnded(s: State): State {
    s.(capturers := s.capturers.(probe := false), mode := s.mode.(reentryPending := false))
  }

  function PassthroughFailed(s: State, now: int): State { FellBack(s, s.timeline.lastKnown, s.mode.playing, true, now) }

  // OnFrameCanceled
  function RetryScheduled(s: State): State {
    if s.packet.Some? && s.mode.active then s.(alarms := s.alarms.(retry := true)) else s
  }

  // ---------- The invariant

  // Exactly one of the two has the Sender, whose timestamps have increased.
  ghost predicate Held(o: Owners) {
    && (o.sender.Some? <==> o.encoder.None?)
    && (o.sender.Some? ==> o.sender.value.timebase >= 16 && Increasing(o.sender.value.accepted))
    && (o.encoder.Some? ==> EncoderInv(o.encoder.value) && o.encoder.value.sender.value.timebase >= 16)
  }

  function TheSender(o: Owners): (r: Sender)
    requires Held(o)
  {
    if o.sender.Some? then o.sender.value else o.encoder.value.sender.value
  }

  predicate InRange(s: State, position: int) {
    0 <= position && (s.settings.mediaDuration > 0 ==> position <= s.settings.mediaDuration)
  }

  predicate BeforeEnd(s: State, position: int) {
    s.settings.mediaDuration <= 0 || position < s.settings.mediaDuration
  }

  predicate Flags(s: State) {
    && (s.canPassthrough ==> s.settings.includeVideo)
    && (s.capturers.video ==> s.owners.encoder.Some?)
    && (s.mode.active ==> s.owners.sender.Some? && s.mode.playing)
    && (s.mode.active ==> s.canPassthrough && Identity(s.viewport) && s.brightness == 0)
    && (s.mode.active <==> s.capturers.passthrough)
    && (s.mode.reentryPending <==> s.capturers.probe)
    && (s.mode.reentryPending ==> BeforeEnd(s, s.timeline.start))
    && !(s.mode.active && s.mode.reentryPending) && !(s.mode.active && s.capturers.video)
    && (s.packet.Some? || s.alarms.retry || s.mode.backpressured ==> s.mode.active)
    && (s.mode.playing ==> !s.alarms.keepalive)
    && InRange(s, s.timeline.start) && InRange(s, s.timeline.lastKnown)
  }

  ghost predicate Inv(s: State) { Held(s.owners) && Flags(s) }

  // What internal steps leave alone.
  predicate Kept(s: State, t: State) {
    && t.settings == s.settings && t.brightness == s.brightness && t.viewport == s.viewport && t.offset == s.offset
    && (t.canPassthrough ==> s.canPassthrough)
  }

  // ---------- Internal steps keep it

  // The Sender may have changed hands, and is the same.
  ghost predicate Handed(o: Owners, p: Owners) {
    Held(o) && Held(p) && TheSender(p) == TheSender(o)
  }

  ghost predicate Moved(s: State, t: State) { Handed(s.owners, t.owners) && Kept(s, t) }

  lemma EncodingKeeps(o: Owners)
    requires Held(o)
    ensures Handed(o, Encoding(o)) && Encoding(o).encoder.Some?
  {
    if o.sender.Some? { NewEncoderKeeps(o.sender.value); }
  }

  lemma ReclaimedKeeps(o: Owners)
    requires Held(o)
    ensures Handed(o, Reclaimed(o)) && Reclaimed(o).sender.Some?
  {
    if o.encoder.Some? { ReleasedKeeps(o.encoder.value); }
  }

  lemma RewoundKeeps(s: State, allowPassthrough: bool)
    requires Held(s.owners)
    ensures Handed(s.owners, Rewound(s, allowPassthrough).owners)
    ensures Rewound(s, allowPassthrough) == Stopped(s).(owners := Rewound(s, allowPassthrough).owners)
    ensures allowPassthrough && s.canPassthrough && Identity(s.viewport)
            ==> Rewound(s, allowPassthrough).owners.sender.Some?
  {
    ReclaimedKeeps(s.owners);
  }

  lemma HandedTwice(o: Owners, p: Owners, q: Owners)
    requires Handed(o, p) && Handed(p, q)
    ensures Handed(o, q)
  {
  }

  lemma PlaybackStartedKeeps(s: State, position: int, allowPassthrough: bool, now: int)
    requires Held(s.owners) && (s.canPassthrough ==> s.settings.includeVideo)
    ensures Moved(s, PlaybackStarted(s, position, allowPassthrough, now))
    ensures Flags(PlaybackStarted(s, position, allowPassthrough, now))
  {
    RewoundKeeps(s, allowPassthrough);
    var o := Rewound(s, allowPassthrough).owners;
    EncodingKeeps(o);
    HandedTwice(s.owners, o, Encoding(o));
  }

  // The keepalive's capturer is there at once, so that the recursion ends.
  lemma PausedKeepaliveKeeps(s: State, position: int, now: int)
    requires Held(s.owners) && (s.canPassthrough ==> s.settings.includeVideo)
    ensures Moved(s, PausedKeepalive(s, position, now))
    ensures Flags(PausedKeepalive(s, position, now)) && !PausedKeepalive(s, position, now).mode.playing
    ensures PausedKeepalive(s, position, now).alarms.keepalive
  {
    EncodingKeeps(s.owners);
  }

  lemma MovedTwice(s: State, t: State, u: State)
    requires Moved(s, t) && Moved(t, u)
    ensures Moved(s, u)
  {
  }

  // Resuming without passthrough leaves it inactive, so that a probe may start.
  lemma ResumedKeeps(s: State, position: int, disable: bool, now: int)
    requires Held(s.owners) && (s.canPassthrough ==> s.settings.includeVideo)
    ensures Moved(s, Resumed(s, position, disable, now)) && Flags(Resumed(s, position, disable, now))
  {
    PlaybackStartedKeeps(s, position, false, now);
    var a := PlaybackStarted(s, position, false, now);
    assert !a.mode.active;
  }

  lemma FellBackKeeps(s: State, position: int, resume: bool, disable: bool, now: int)
    requires Held(s.owners) && (s.canPassthrough ==> s.settings.includeVideo) && (!s.canPassthrough ==> Flags(s))
    ensures Moved(s, FellBack(s, position, resume, disable, now)) && Flags(FellBack(s, position, resume, disable, now))
  {
    if s.canPassthrough {
      var a := WithEncoder(s.(canPassthrough := !disable, mode := s.mode.(active := false)));
      EncodingKeeps(s.owners);
      if resume { ResumedKeeps(a, position, disable, now); } else { PausedKeepaliveKeeps(a, position, now); }
      MovedTwice(s, a, FellBack(s, position, resume, disable, now));
    }
  }

  lemma KeepaliveSentKeeps(s: State, now: int)
    requires Inv(s)
    ensures Moved(s, KeepaliveSent(s, now)) && Flags(KeepaliveSent(s, now))
  {
    FellBackKeeps(s, s.timeline.lastKnown, false, false, now);
    PausedKeepaliveKeeps(s, s.timeline.lastKnown, now);
  }

  // ---------- Steps that hand frames to the Sender

  // The Sender's frames grow, and the passthrough offset never decreases.
  ghost predicate Advanced(s: State, t: State) {
    && Inv(t) && Held(s.owners)
    && TheSender(s.owners).timebase == TheSender(t.owners).timebase
    && TheSender(s.owners).accepted <= TheSender(t.owners).accepted
    && t.offset >= s.offset
  }

  lemma MovedAdvances(s: State, t: State)
    requires Moved(s, t) && Flags(t)
    ensures Advanced(s, t)
  {
  }

  lemma AdvancedTwice(s: State, t: State, u: State)
    requires Advanced(s, t) && Advanced(t, u)
    ensures Advanced(s, u)
  {
  }

  function WithCodec(s: State, e: Encoder): State { s.(owners := s.owners.(encoder := Some(e))) }

  lemma WithCodecKeeps(s: State, e: Encoder)
    requires Inv(s) && s.owners.encoder.Some? && EncoderInv(e)
    requires e.sender.value.timebase == s.owners.encoder.value.sender.value.timebase
    requires s.owners.encoder.value.sender.value.accepted <= e.sender.value.accepted
    ensures Advanced(s, WithCodec(s, e))
  {
  }

  // No step of encoding a frame touches the Sender.
  lemma EncodedLeavesSender(e: Encoder, reference: int, tooMuchInFlight: bool, input: Input)
    requires e.sender.Some? && e.sender.value.timebase > 0
    ensures Encoded(e, reference, DEFAULT_STEP, tooMuchInFlight, input).sender == e.sender
  {
  }

  lemma FrameEncodedKeeps(s: State, reference: int, tooMuchInFlight: bool, input: Input)
    requires Inv(s) && s.capturers.video
    ensures Advanced(s, FrameEncoded(s, reference, tooMuchInFlight, input))
  {
    var e := s.owners.encoder.value;
    StepIsPositive(e.sender.value.timebase);
    EncodedKeeps(e, reference, DEFAULT_STEP, tooMuchInFlight, input);
    EncodedLeavesSender(e, reference, tooMuchInFlight, input);
    WithCodecKeeps(Following(s, reference), Encoded(e, reference, DEFAULT_STEP, tooMuchInFlight, input));
  }

  // The state in which the Sender has answered and nothing has followed from it.
  function Offered(s: State, ok: bool): State
    requires s.packet.Some? && s.owners.sender.Some? && s.owners.sender.value.timebase > 0
  {
    var (rtp, offset) := Adjusted(s.owners.sender.value, s.offset, s.packet.value.mediaTime);
    s.(offset := offset, owners := s.owners.(sender := Some(s.owners.sender.value.Enqueue(rtp, ok))))
  }

  lemma OfferedKeeps(s: State, ok: bool)
    requires Inv(s) && s.packet.Some?
    ensures Advanced(s, Offered(s, ok))
  {
    PassthroughKeeps(s.owners.sender.value, s.offset, s.packet.value.mediaTime, ok);
  }

  lemma AnsweredKeeps(s: State, position: int, answer: Answer, now: int)
    requires Inv(s) && s.packet.Some?
    ensures Advanced(s, Answered(s, position, answer, now))
  {
    var a := Offered(s, answer == Accepted);
    OfferedKeeps(s, answer == Accepted);
    if answer == Failed {
      FellBackKeeps(a.(packet := None), position, a.mode.playing, true, now);
      MovedAdvances(a, Answered(s, position, answer, now));
      AdvancedTwice(s, a, Answered(s, position, answer, now));
    }
  }

  // With a packet pending, the Sender is at hand: passthrough never finds it missing.
  lemma RetriedKeeps(s: State, answer: Answer, now: int)
    requires Inv(s)
    ensures Advanced(s, Retried(s, answer, now))
  {
    if s.packet.Some? {
      var p := s.packet.value;
      var a := Following(s.(alarms := s.alarms.(retry := false)), p.reference);
      assert Inv(a) && Advanced(s, a);
      if s.owners.sender.value.NoFrameYet() && !p.isKey {
        FellBackKeeps(a, PositionAt(s, p.reference), true, true, now);
        MovedAdvances(s, Retried(s, answer, now));
      } else {
        AnsweredKeeps(a, PositionAt(s, p.reference), answer, now);
        AdvancedTwice(s, a, Retried(s, answer, now));
      }
    }
  }

  lemma PacketReceivedKeeps(s: State, p: Packet, answer: Answer, now: int)
    requires Inv(s) && (s.capturers.passthrough || s.capturers.probe)
    ensures Advanced(s, PacketReceived(s, p, answer, now))
  {
    if s.mode.active {
      RetriedKeeps(s.(packet := Some(p)), answer, now);
    } else {
      PlaybackStartedKeeps(s, p.mediaTime, true, now);
    }
  }

  // ---------- Every run

  datatype Event =
    | Play
    | Pause
    | Stop
    | SeekTo(position: int)
    | SeekBy(delta: int)
    | RecoverFromSeekStorm(position: int, resume: bool)
    | SetViewport(viewport: Viewport)
    | ResetViewport
    | SetBrightness(brightness: int)
    | OnAudioData(reference: int)
    | OnVideoFrame(reference: int, tooMuchInFlight: bool, input: Input)
    | OnVideoPacket(packet: Packet, answer: Answer)
    | RetryFires(answer: Answer)
    | KeepaliveFires
    | OnEndOfFile
    | OnProbeEnd
    | OnCapturerError
    | OnPassthroughError
    | OnFrameCanceled
    | CodecReplaced
    | CodecOutput(presentation: int, empty: bool)
    | Deliver(ok: bool)

  // A capturer calls back only while it is alive, an alarm fires only if it is set. The passthrough capturer
  // waits, after each packet, until it is told to continue, which it is when the packet was accepted.
  predicate Enabled(s: State, e: Event) {
    match e
    case OnAudioData(_) => s.capturers.audio
    case OnVideoFrame(_, _, _) => s.capturers.video
    case OnVideoPacket(_, _) => (s.capturers.passthrough && s.packet.None?) || s.capturers.probe
    case RetryFires(_) => s.alarms.retry
    case KeepaliveFires => s.alarms.keepalive
    case OnEndOfFile => s.capturers.audio || s.capturers.video || s.capturers.passthrough
    case OnProbeEnd => s.capturers.probe
    case OnCapturerError => s.capturers.audio || s.capturers.video
    case OnPassthroughError => s.capturers.passthrough
    case CodecReplaced => s.capturers.video
    case CodecOutput(_, _) => s.owners.encoder.Some? && s.owners.encoder.value.inCodec > 0
    case Deliver(_) => s.owners.encoder.Some? && s.owners.encoder.value.posted != []
    case _ => true
  }

  ghost function Next(s: State, e: Event, now: int): State
    requires Inv(s) && Enabled(s, e)
  {
    match e
    case Play => Played(s, now)
    case Pause => Paused(s, now)
    case Stop => KnownAt(Paused(s, now), 0)
    case SeekTo(position) => SoughtTo(s, position, now)
    case SeekBy(delta) => SoughtTo(s, CurrentPosition(s, now) + delta, now)
    case RecoverFromSeekStorm(position, resume) => Recovered(s, position, resume, now)
    case SetViewport(v) => ViewportSet(s, v, now)
    case ResetViewport => s.(viewport := WHOLE_FRAME)
    case SetBrightness(brightness) => BrightnessSet(s, brightness, now)
    case OnAudioData(reference) => Following(s, reference)
    case OnVideoFrame(reference, tooMuch, input) => FrameEncoded(s, reference, tooMuch, input)
    case OnVideoPacket(p, answer) => PacketReceived(s, p, answer, now)
    case RetryFires(answer) => Retried(s.(alarms := s.alarms.(retry := false)), answer, now)
    case KeepaliveFires => KeepaliveSent(s.(alarms := s.alarms.(keepalive := false)), now)
    case OnEndOfFile => FileEnded(s, now)
    case OnProbeEnd => ProbeEnded(s)
    case OnCapturerError => Stopped(s)
    case OnPassthroughError => PassthroughFailed(s, now)
    case OnFrameCanceled => RetryScheduled(s)
    case CodecReplaced => WithCodec(s, Reconfigured(s.owners.encoder.value))
    case CodecOutput(presentation, empty) => WithCodec(s, Output(s.owners.encoder.value, presentation, empty))
    case Deliver(ok) => DeliveredKeeps(s.owners.encoder.value, ok); WithCodec(s, Delivered(s.owners.encoder.value, ok))
  }

  lemma SoughtToKeeps(s: State, position: int, now: int)
    requires Inv(s)
    ensures Advanced(s, SoughtTo(s, position, now))
  {
    var a := KnownAt(s, Clamped(s, position));
    PlaybackStartedKeeps(a, a.timeline.lastKnown, true, now);
    FellBackKeeps(a, a.timeline.lastKnown, a.mode.playing, false, now);
    PausedKeepaliveKeeps(a, a.timeline.lastKnown, now);
  }

  lemma PausedKeeps(s: State, now: int)
    requires Inv(s)
    ensures Advanced(s, Paused(s, now)) && !Paused(s, now).mode.playing
  {
    var a := KnownAt(s, CurrentPosition(s, now));
    if s.mode.active {
      FellBackKeeps(a, a.timeline.lastKnown, false, false, now);
      PausedKeepaliveKeeps(WithEncoder(a.(mode := a.mode.(active := false))), a.timeline.lastKnown, now);
    }
  }

  lemma RecoveredKeeps(s: State, position: int, resume: bool, now: int)
    requires Inv(s)
    ensures Advanced(s, Recovered(s, position, resume, now))
  {
    var a := KnownAt(s, Clamped(s, position));
    FellBackKeeps(a, a.timeline.lastKnown, true, false, now);
    PausedKeepaliveKeeps(a, a.timeline.lastKnown, now);
  }

  // Leaving the conditions of passthrough ends it.
  lemma ViewportSetKeeps(s: State, v: Viewport, now: int)
    requires Inv(s)
    ensures Advanced(s, ViewportSet(s, v, now))
  {
    var a := s.(viewport := ClampedViewport(v));
    FellBackKeeps(a, CurrentPosition(a, now), a.mode.playing, false, now);
  }

  lemma BrightnessSetKeeps(s: State, brightness: int, now: int)
    requires Inv(s)
    ensures Advanced(s, BrightnessSet(s, brightness, now))
  {
    var b := if brightness < -200 then -200 else if brightness > 200 then 200 else brightness;
    var a := s.(brightness := b);
    FellBackKeeps(a, CurrentPosition(a, now), a.mode.playing, false, now);
  }

  lemma FileEndedKeeps(s: State, now: int)
    requires Inv(s)
    ensures Advanced(s, FileEnded(s, now))
  {
    var b := KnownAt(Stopped(s.(capturers := s.capturers.(running := s.capturers.running - 1))),
        s.settings.mediaDuration);
    PausedKeepaliveKeeps(b, b.timeline.lastKnown, now);
  }

  lemma CodecKeeps(s: State, e: Event, now: int)
    requires Inv(s) && Enabled(s, e) && (e.CodecReplaced? || e.CodecOutput? || e.Deliver?)
    ensures Advanced(s, Next(s, e, now))
  {
    var encoder := s.owners.encoder.value;
    match e
    case CodecOutput(presentation, empty) =>
      OutputKeeps(encoder, presentation, empty);
      WithCodecKeeps(s, Output(encoder, presentation, empty));
    case Deliver(ok) =>
      DeliveredKeeps(encoder, ok);
      WithCodecKeeps(s, Delivered(encoder, ok));
    case CodecReplaced => WithCodecKeeps(s, Reconfigured(encoder));
  }

  lemma ControlKeeps(s: State, e: Event, now: int)
    requires Inv(s) && Enabled(s, e)
    requires IsControl(e)
    ensures Advanced(s, Next(s, e, now))
  {
    match e
    case Play => PlaybackStartedKeeps(s, s.timeline.lastKnown, true, now);
    case Pause => PausedKeeps(s, now);
    case Stop => PausedKeeps(s, now);
    case SeekTo(position) => SoughtToKeeps(s, position, now);
    case SeekBy(delta) => SoughtToKeeps(s, CurrentPosition(s, now) + delta, now);
    case RecoverFromSeekStorm(position, resume) => RecoveredKeeps(s, position, resume, now);
    case SetViewport(v) => ViewportSetKeeps(s, v, now);
    case ResetViewport =>
    case SetBrightness(brightness) => BrightnessSetKeeps(s, brightness, now);
  }

  lemma NextKeeps(s: State, e: Event, now: int)
    requires Inv(s) && Enabled(s, e)
    ensures Advanced(s, Next(s, e, now))
  {
    match e
    case OnAudioData(_) =>
    case OnVideoFrame(reference, tooMuch, input) => FrameEncodedKeeps(s, reference, tooMuch, input);
    case OnVideoPacket(p, answer) => PacketReceivedKeeps(s, p, answer, now);
    case RetryFires(answer) => RetriedKeeps(s.(alarms := s.alarms.(retry := false)), answer, now);
    case KeepaliveFires => KeepaliveSentKeeps(s.(alarms := s.alarms.(keepalive := false)), now);
    case OnEndOfFile => FileEndedKeeps(s, now);
    case OnProbeEnd =>
    case OnCapturerError =>
    case OnPassthroughError => FellBackKeeps(s, s.timeline.lastKnown, s.mode.playing, true, now);
    case OnFrameCanceled =>
    case CodecReplaced => CodecKeeps(s, e, now);
    case CodecOutput(_, _) => CodecKeeps(s, e, now);
    case Deliver(_) => CodecKeeps(s, e, now);
    case _ => ControlKeeps(s, e, now);
  }

  // The sender as constructed, with the Sender it is given, and whether passthrough is on offer.
  function Constructed(settings: Settings, brightness: int, sender: Option<Sender>, eligible: bool): State {
    var can := settings.includeVideo && sender.Some? && eligible;
    var s := State(settings, brightness, WHOLE_FRAME, can, Owners(sender, None), NO_CAPTURERS, Timeline(0, 0, 0),
                   NOT_PLAYING, Alarms(false, false), 0, None);
    if can then s else WithEncoder(s)
  }

  lemma ConstructedKeeps(settings: Settings, brightness: int, sender: Sender, eligible: bool)
    requires sender.timebase >= 16 && Increasing(sender.accepted)
    ensures Inv(Constructed(settings, brightness, Some(sender), eligible))
    ensures var s := Constructed(settings, brightness, Some(sender), eligible);
            && TheSender(s.owners) == sender && !s.mode.playing && s.timeline.lastKnown == 0
            && s.canPassthrough == (settings.includeVideo && eligible)
            && (s.owners.sender.Some? <==> s.canPassthrough)
  {
    EncodingKeeps(Owners(Some(sender), None));
  }

  ghost predicate IsRun(states: seq<State>, events: seq<Event>, times: seq<int>) {
    && |states| == |events| + 1 && |times| == |events|
    && forall i :: 0 <= i < |events| ==> Leads(states[i], events[i], times[i], states[i + 1])
  }

  // An event that can happen, and what it does.
  ghost predicate Leads(s: State, e: Event, now: int, t: State) {
    Inv(s) ==> Enabled(s, e) && t == Next(s, e, now)
  }

  // Over every run: exactly one producer has the Sender and it is the same one throughout, the timestamps it
  // accepted have increased strictly, the passthrough offset has not decreased, a live decoding capturer has
  // an encoder to feed, and passthrough is active only where all its conditions hold.
  lemma {:induction false} EveryRunKeeps(states: seq<State>, events: seq<Event>, times: seq<int>, n: nat)
    requires IsRun(states, events, times) && Inv(states[0]) && n < |states|
    ensures Advanced(states[0], states[n])
  {
    if n > 0 {
      EveryRunKeeps(states, events, times, n - 1);
      assert Leads(states[n - 1], events[n - 1], times[n - 1], states[n - 1 + 1]);
      NextKeeps(states[n - 1], events[n - 1], times[n - 1]);
      AdvancedTwice(states[0], states[n - 1], states[n]);
    }
  }

  lemma AcceptedTimestampsIncrease(states: seq<State>, events: seq<Event>, times: seq<int>, n: nat)
    requires IsRun(states, events, times) && Inv(states[0]) && n < |states|
    ensures Held(states[n].owners) && Increasing(TheSender(states[n].owners).accepted)
  {
    EveryRunKeeps(states, events, times, n);
    if states[n].owners.encoder.Some? { AcceptedIncreasing(states[n].owners.encoder.value); }
  }

  // ---------- What the user sees

  // Starting playback lands at the position asked for, within the media, and passthrough is active exactly
  // where the settings allow it: one of the two producers always has a Sender to give.
  lemma PlaybackLands(s: State, position: int, allowPassthrough: bool, now: int)
    requires Held(s.owners) && s.settings.delay >= 0
    ensures var t, p := PlaybackStarted(s, position, allowPassthrough, now), Clamped(s, position);
            && CurrentPosition(t, now) == p && t.timeline.lastKnown == p
            && (t.mode.playing <==> !(s.settings.mediaDuration > 0 && p >= s.settings.mediaDuration))
            && (t.mode.active <==> allowPassthrough && s.settings.includeVideo && s.canPassthrough && s.brightness == 0
                                   && Identity(s.viewport) && t.mode.playing)
            && t.capturers.audio == t.mode.playing && t.capturers.passthrough == t.mode.active
            && (t.capturers.video <==> t.mode.playing && s.settings.includeVideo && !t.mode.active)
  {
    RewoundKeeps(s, allowPassthrough);
  }

  lemma KeepaliveLands(s: State, position: int, now: int)
    ensures var t := PausedKeepalive(s, position, now);
            !t.mode.playing && t.alarms.keepalive && t.timeline.lastKnown == t.timeline.start == Clamped(s, position)
  {
  }

  lemma FallbackLands(s: State, position: int, resume: bool, disable: bool, now: int)
    requires Held(s.owners) && s.settings.delay >= 0 && s.canPassthrough
    ensures var t := FellBack(s, position, resume, disable, now);
            && CurrentPosition(t, now) == Clamped(s, position) && !t.mode.active && t.canPassthrough == !disable
            && (t.mode.playing <==> resume && BeforeEnd(s, Clamped(s, position)))
            && (t.mode.reentryPending <==> t.mode.playing && !disable && Identity(s.viewport))
  {
    var a := WithEncoder(s.(canPassthrough := !disable, mode := s.mode.(active := false)));
    EncodingKeeps(s.owners);
    PlaybackLands(a, position, false, now);
    KeepaliveLands(a, position, now);
  }

  // Where playback would be passthrough.
  predicate PassthroughAllowed(s: State) {
    s.settings.includeVideo && s.canPassthrough && s.brightness == 0 && Identity(s.viewport)
  }

  // A seek ends at its position, in every mode; it goes on playing unless that is the end, in passthrough where
  // that is allowed.
  lemma SeekLands(s: State, position: int, now: int)
    requires Inv(s) && s.settings.delay >= 0
    ensures var t := SoughtTo(s, position, now);
            && CurrentPosition(t, now) == Clamped(s, position)
            && (t.mode.playing <==> s.mode.playing && BeforeEnd(s, Clamped(s, position)))
            && (t.mode.active <==> t.mode.playing && PassthroughAllowed(s))
  {
    var a := KnownAt(s, Clamped(s, position));
    PlaybackLands(a, a.timeline.lastKnown, true, now);
    KeepaliveLands(a, a.timeline.lastKnown, now);
    if a.canPassthrough { FallbackLands(a, a.timeline.lastKnown, a.mode.playing, false, now); }
  }

  // A seek by way of storm recovery does so too, unless it is to resume while transcoded playback goes on that
  // cannot become passthrough: then the seek is lost, and playback goes on from where it was.
  lemma RecoveryLands(s: State, position: int, resume: bool, now: int)
    requires Inv(s) && s.settings.delay >= 0
    ensures CurrentPosition(Recovered(s, position, resume, now), now) == Clamped(s, position)
            <==> !resume || s.canPassthrough || !s.mode.playing || CurrentPosition(s, now) == Clamped(s, position)
  {
    var a := KnownAt(s, Clamped(s, position));
    KeepaliveLands(a, a.timeline.lastKnown, now);
    if a.canPassthrough { FallbackLands(a, a.timeline.lastKnown, true, false, now); }
  }

  // Playing and pausing continue from where the media was, and so does a change of viewport or brightness, even
  // one that ends passthrough.
  lemma PlayContinues(s: State, now: int)
    requires Inv(s) && s.settings.delay >= 0
    ensures CurrentPosition(Played(s, now), now) == CurrentPosition(s, now)
    ensures !s.mode.playing ==>
              && (Played(s, now).mode.playing <==> BeforeEnd(s, s.timeline.lastKnown))
              && (Played(s, now).mode.active <==> Played(s, now).mode.playing && PassthroughAllowed(s))
    ensures s.mode.playing ==> Played(s, now) == s
  {
    PlaybackLands(s, s.timeline.lastKnown, true, now);
  }

  // And a paused position stands still.
  lemma PauseHolds(s: State, now: int, later: int)
    requires Inv(s) && s.settings.delay >= 0
    ensures !Paused(s, now).mode.playing && CurrentPosition(Paused(s, now), later) == CurrentPosition(s, now)
    ensures !s.mode.active ==> Paused(s, now).capturers == s.capturers && Paused(s, now).owners == s.owners
  {
    PausedKeeps(s, now);
    if s.mode.active {
      var a := KnownAt(s, CurrentPosition(s, now));
      KeepaliveLands(WithEncoder(a.(mode := a.mode.(active := false))), a.timeline.lastKnown, now);
    }
  }

  lemma PictureChangesKeepPosition(s: State, v: Viewport, brightness: int, now: int)
    requires Inv(s) && s.settings.delay >= 0
    ensures CurrentPosition(ViewportSet(s, v, now), now) == CurrentPosition(s, now)
    ensures CurrentPosition(BrightnessSet(s, brightness, now), now) == CurrentPosition(s, now)
    ensures !Identity(ClampedViewport(v)) ==> !ViewportSet(s, v, now).mode.active
    ensures brightness != 0 ==> !BrightnessSet(s, brightness, now).mode.active
    ensures !s.mode.active || Identity(ClampedViewport(v)) ==>
              ViewportSet(s, v, now) == s.(viewport := ViewportSet(s, v, now).viewport)
    ensures !s.mode.active || brightness == 0 ==>
              BrightnessSet(s, brightness, now) == s.(brightness := BrightnessSet(s, brightness, now).brightness)
    ensures s.mode.active && BeforeEnd(s, CurrentPosition(s, now)) ==>
              ViewportSet(s, v, now).mode.playing && BrightnessSet(s, brightness, now).mode.playing
  {
    var a := s.(viewport := ClampedViewport(v));
    var b := s.(brightness := if brightness < -200 then -200 else if brightness > 200 then 200 else brightness);
    if s.mode.active {
      FallbackLands(a, CurrentPosition(a, now), a.mode.playing, false, now);
      FallbackLands(b, CurrentPosition(b, now), b.mode.playing, false, now);
    }
  }

  // Playback goes on with the clock, from the start of the media's clock on.
  lemma PositionGoesOn(s: State, now: int)
    requires s.mode.playing
    ensures now <= s.timeline.playbackStart ==> CurrentPosition(s, now) == Clamped(s, s.timeline.start)
    ensures now >= s.timeline.playbackStart ==>
              CurrentPosition(s, now) == Clamped(s, s.timeline.start + (now - s.timeline.playbackStart))
  {
  }

  // Clamping leaves a position within the media alone and takes any other to the nearer end.
  lemma ClampedIs(s: State, position: int)
    ensures InRange(s, Clamped(s, position)) && (InRange(s, position) ==> Clamped(s, position) == position)
    ensures position < 0 ==> Clamped(s, position) == 0
    ensures s.settings.mediaDuration > 0 && position > s.settings.mediaDuration ==>
              Clamped(s, position) == s.settings.mediaDuration
  {
  }

  // What is heard or seen is what is known, while playing, and an error falls back to there.
  lemma MediaIsFollowed(s: State, reference: int, now: int)
    requires Inv(s) && s.settings.delay >= 0
    ensures Following(s, reference).timeline.lastKnown ==
              if s.mode.playing then CurrentPosition(s, reference) else s.timeline.lastKnown
    ensures s.mode.active ==>
              CurrentPosition(PassthroughFailed(Following(s, reference), now), now) == CurrentPosition(s, reference)
  {
    var a := Following(s, reference);
    if s.mode.active { FallbackLands(a, a.timeline.lastKnown, a.mode.playing, true, now); }
  }

  // An acceptable packet of a probe is a key frame no more than 1.5 seconds before the start; playback is
  // started at it, in passthrough where the settings allow it. Any other changes nothing.
  lemma ReentryLands(s: State, p: Packet, answer: Answer, now: int)
    requires Inv(s) && s.settings.delay >= 0 && s.mode.reentryPending
    ensures var t := PacketReceived(s, p, answer, now);
            if p.isKey && p.mediaTime >= s.timeline.start - 1_500_000 then
              && CurrentPosition(t, now) == Clamped(s, p.mediaTime)
              && (t.mode.active <==> s.settings.includeVideo && s.canPassthrough && s.brightness == 0
                                     && Identity(s.viewport) && BeforeEnd(s, Clamped(s, p.mediaTime)))
            else t == s
  {
    PlaybackLands(s, p.mediaTime, true, now);
  }

  // Playback ends when every capturer has, and then at the end of the media.
  lemma EndsAfterAll(s: State, position: int, allowPassthrough: bool, now: int, later: int)
    requires PlaybackStarted(s, position, allowPassthrough, now).mode.playing
    ensures var t := PlaybackStarted(s, position, allowPassthrough, now);
            var u := if s.settings.includeVideo then FileEnded(t, later) else t;
            && u == t.(capturers := u.capturers) && u.mode.playing
            && !FileEnded(u, later).mode.playing
            && FileEnded(u, later).timeline.lastKnown == Clamped(s, s.settings.mediaDuration)
  {
    var t := PlaybackStarted(s, position, allowPassthrough, now);
    var b := KnownAt(Stopped(t), t.settings.mediaDuration);
    KeepaliveLands(b, t.settings.mediaDuration, later);
  }

  // A paused sender sends keepalive frames for as long as it is paused: each one sets the alarm for the next, and a
  // pause or a paused seek sets it first.
  lemma KeepaliveGoesOn(s: State, position: int, now: int)
    requires Inv(s)
    ensures !s.mode.playing ==>
              var t := KeepaliveSent(s, now);
              !t.mode.playing && t.alarms.keepalive && t.capturers.video && t.timeline.lastKnown == s.timeline.lastKnown
    ensures Paused(s, now).alarms.keepalive
    ensures !s.mode.playing ==> SoughtTo(s, position, now).alarms.keepalive
  {
    var a := WithEncoder(s.(mode := s.mode.(active := false)));
    KeepaliveLands(s, s.timeline.lastKnown, now);
    KeepaliveLands(a, s.timeline.lastKnown, now);
    var b := KnownAt(s, CurrentPosition(s, now));
    KeepaliveLands(WithEncoder(b.(mode := b.mode.(active := false))), b.timeline.lastKnown, now);
    KeepaliveLands(KnownAt(s, Clamped(s, position)), Clamped(s, position), now);
  }

  // Settings of the picture are taken over, within their ranges.
  lemma PictureIsSet(s: State, v: Viewport, brightness: int, now: int)
    requires Inv(s)
    ensures ViewportSet(s, v, now).viewport == ClampedViewport(v)
    ensures 1.0 <= v.zoom <= 8.0 && 0.0 <= v.centerX <= 1.0 && 0.0 <= v.centerY <= 1.0 ==> ClampedViewport(v) == v
    ensures var w := ClampedViewport(v);
            1.0 <= w.zoom <= 8.0 && 0.0 <= w.centerX <= 1.0 && 0.0 <= w.centerY <= 1.0
    ensures -200 <= BrightnessSet(s, brightness, now).brightness <= 200
    ensures -200 <= brightness <= 200 ==> BrightnessSet(s, brightness, now).brightness == brightness
  {
    ViewportSetKeeps(s, v, now);
    BrightnessSetKeeps(s, brightness, now);
    var a := s.(viewport := ClampedViewport(v));
    FellBackKeeps(a, CurrentPosition(a, now), a.mode.playing, false, now);
    var b := s.(brightness := if brightness < -200 then -200 else if brightness > 200 then 200 else brightness);
    FellBackKeeps(b, CurrentPosition(b, now), b.mode.playing, false, now);
  }

  // ---------- What becomes of a passthrough packet

  // The timestamp the pending packet is offered under.
  function PacketTimestamp(s: State): int
    requires s.packet.Some? && s.owners.sender.Some? && s.owners.sender.value.timebase > 0
  {
    Adjusted(s.owners.sender.value, s.offset, s.packet.value.mediaTime).0
  }

  // Offering a packet again, with the offset the last offer left, is offering it under the same timestamp.
  lemma AdjustedAgain(sender: Sender, offset: int, mediaTime: int)
    requires sender.timebase > 0
    ensures var again := Adjusted(sender, offset, mediaTime);
            Adjusted(sender, again.1, mediaTime) == again
  {
  }

  predicate MayStart(s: State, p: Packet)
    requires s.owners.sender.Some?
  {
    p.isKey || !s.owners.sender.value.NoFrameYet()
  }

  // A packet delivered in active passthrough is accepted under its timestamp, or held back whole, or ends
  // passthrough for good, where the media was.
  lemma PacketDelivered(s: State, p: Packet, answer: Answer, now: int)
    requires Inv(s) && s.mode.active && s.packet.None? && s.settings.delay >= 0
    ensures var t, sender := PacketReceived(s, p, answer, now), s.owners.sender.value;
            && Inv(t)
            && (MayStart(s, p) && answer == Accepted ==>
                  && t.mode.active && t.packet.None? && !t.mode.backpressured
                  && TheSender(t.owners).accepted == sender.accepted + [Adjusted(sender, s.offset, p.mediaTime).0])
            && (MayStart(s, p) && answer == TooMuchInFlight ==>
                  && t.mode.active && t.packet == Some(p) && t.mode.backpressured && t.owners == s.owners
                  && PacketTimestamp(t) == Adjusted(sender, s.offset, p.mediaTime).0)
            && (!MayStart(s, p) || answer == Failed ==>
                  && !t.mode.active && !t.canPassthrough && TheSender(t.owners) == sender
                  && CurrentPosition(t, now) == PositionAt(s, p.reference))
  {
    PacketReceivedKeeps(s, p, answer, now);
    var a := Following(s.(packet := Some(p)), p.reference);
    AdjustedAgain(s.owners.sender.value, s.offset, p.mediaTime);
    if !MayStart(s, p) {
      FallbackLands(a.(alarms := a.alarms.(retry := false)), PositionAt(s, p.reference), true, true, now);
      FellBackKeeps(a.(alarms := a.alarms.(retry := false)), PositionAt(s, p.reference), true, true, now);
    } else if answer == Failed {
      FailedLands(a.(alarms := a.alarms.(retry := false)), PositionAt(s, p.reference), now);
    }
  }

  lemma FailedLands(s: State, position: int, now: int)
    requires Inv(s) && s.packet.Some? && s.settings.delay >= 0 && InRange(s, position)
    ensures var t := Answered(s, position, Failed, now);
            && !t.mode.active && !t.canPassthrough && TheSender(t.owners) == s.owners.sender.value
            && CurrentPosition(t, now) == position
  {
    var a := Offered(s, false).(packet := None);
    OfferedKeeps(s, false);
    FallbackLands(a, position, a.mode.playing, true, now);
    FellBackKeeps(a, position, a.mode.playing, true, now);
  }

  // The events that end passthrough, or start it anew, and the pending packet with it.
  predicate Interrupts(s: State, e: Event) {
    match e
    case Pause => true
    case Stop => true
    case SeekTo(_) => true
    case SeekBy(_) => true
    case RecoverFromSeekStorm(_, _) => true
    case SetViewport(v) => !Identity(ClampedViewport(v))
    case SetBrightness(brightness) => brightness != 0
    case RetryFires(answer) =>
      answer == Failed || (s.packet.Some? && s.owners.sender.Some? && !MayStart(s, s.packet.value))
    case OnEndOfFile => s.capturers.running == 1
    case OnCapturerError => true
    case OnPassthroughError => true
    case _ => false
  }

  // A packet held back stays pending, to be offered under the same timestamp, until a retry is accepted, and is
  // accepted then.
  lemma HeldPacketStays(s: State, e: Event, now: int)
    requires Inv(s) && Enabled(s, e) && s.packet.Some? && !Interrupts(s, e)
    ensures var t := Next(s, e, now);
            && Inv(t) && t.mode.active
            && (if e == RetryFires(Accepted) then
                  && t.packet.None? && !t.mode.backpressured
                  && TheSender(t.owners).accepted == TheSender(s.owners).accepted + [PacketTimestamp(s)]
                else t.packet == s.packet && t.owners == s.owners && PacketTimestamp(t) == PacketTimestamp(s))
  {
    NextKeeps(s, e, now);
    AdjustedAgain(s.owners.sender.value, s.offset, s.packet.value.mediaTime);
  }

  // A retry is set off by the Sender letting go of a frame.
  lemma HeldPacketIsRetried(s: State, now: int, later: int)
    requires Inv(s) && s.packet.Some? && MayStart(s, s.packet.value)
    ensures var t := Next(s, OnFrameCanceled, now);
            && Enabled(t, RetryFires(Accepted))
            && TheSender(Next(t, RetryFires(Accepted), later).owners).accepted
                 == TheSender(s.owners).accepted + [PacketTimestamp(s)]
  {
    HeldPacketStays(s, OnFrameCanceled, now);
    HeldPacketStays(Next(s, OnFrameCanceled, now), RetryFires(Accepted), later);
  }

  // Where a held packet stands after `n` events: still pending, or accepted at one of them.
  ghost predicate StillPending(s: State, t: State) {
    && Inv(s) && Inv(t) && s.packet.Some? && t.packet == s.packet && t.owners == s.owners
    && PacketTimestamp(t) == PacketTimestamp(s)
  }

  ghost predicate AcceptedAt(states: seq<State>, events: seq<Event>, k: nat) {
    && k < |events| && k + 1 < |states| && events[k] == RetryFires(Accepted) && StillPending(states[0], states[k])
    && Held(states[k + 1].owners)
    && TheSender(states[k + 1].owners).accepted == TheSender(states[0].owners).accepted + [PacketTimestamp(states[0])]
  }

  lemma {:induction false} HeldPacketRun(states: seq<State>, events: seq<Event>, times: seq<int>, n: nat)
    requires IsRun(states, events, times) && Inv(states[0]) && states[0].packet.Some? && n < |states|
    requires forall k :: 0 <= k < n ==> !Interrupts(states[k], events[k])
    ensures StillPending(states[0], states[n]) || exists k :: 0 <= k < n && AcceptedAt(states, events, k)
  {
    if n > 0 {
      var m := n - 1;
      HeldPacketRun(states, events, times, m);
      if StillPending(states[0], states[m]) {
        assert Leads(states[m], events[m], times[m], states[m + 1]);
        HeldPacketStays(states[m], events[m], times[m]);
        if events[m] == RetryFires(Accepted) { assert AcceptedAt(states, events, m); }
      }
    }
  }

  // ---------- The exceptions

  // Without a video Sender, a paused keepalive makes a decoding capturer with no encoder to feed.
  lemma NoSenderNoEncoder(settings: Settings, brightness: int, eligible: bool, now: int)
    ensures var s := PausedKeepalive(Constructed(settings, brightness, None, eligible), 0, now);
            s.capturers.video && s.owners == Owners(None, None)
  {
  }

  // Where passthrough is impossible, resuming seek storm recovery writes the last known position and nothing else.
  lemma RecoveryMayNotResume(s: State, position: int, now: int)
    ensures !s.canPassthrough ==> Recovered(s, position, true, now) == KnownAt(s, Clamped(s, position))
    ensures s.canPassthrough && s.settings.includeVideo && Held(s.owners) ==>
              var t := Recovered(s, position, true, now);
              t.mode.playing <==> !(s.settings.mediaDuration > 0 && position >= s.settings.mediaDuration)
  {
  }

  // ---------- When a paused sender plays

  // The events that start playback in a paused sender: being told to, and a probe's packet.
  predicate StartsPlayback(s: State, e: Event) {
    match e
    case Play => BeforeEnd(s, s.timeline.lastKnown)
    case RecoverFromSeekStorm(position, resume) => resume && s.canPassthrough && BeforeEnd(s, position)
    case OnVideoPacket(p, _) => AcceptableReentry(s, p) && BeforeEnd(s, p.mediaTime)
    case _ => false
  }

  lemma KeepaliveStaysPaused(s: State, now: int)
    requires !s.mode.playing && !s.mode.active
    ensures !KeepaliveSent(s, now).mode.playing
    ensures KeepaliveSent(s, now).mode.reentryPending ==> s.mode.reentryPending
  {
    KeepaliveLands(s, s.timeline.lastKnown, now);
    var a := WithEncoder(s.(mode := s.mode.(active := false)));
    KeepaliveLands(a, s.timeline.lastKnown, now);
  }

  ghost predicate PlaysExactly(s: State, e: Event, t: State) {
    && (t.mode.playing <==> StartsPlayback(s, e))
    && (!StartsPlayback(s, e) && t.mode.reentryPending ==> s.mode.reentryPending)
  }

  predicate IsControl(e: Event) {
    e.Play? || e.Pause? || e.Stop? || e.SeekTo? || e.SeekBy? || e.RecoverFromSeekStorm? || e.SetViewport?
    || e.ResetViewport? || e.SetBrightness?
  }

  lemma ControlPlays(s: State, e: Event, now: int)
    requires Inv(s) && Enabled(s, e) && !s.mode.playing && IsControl(e)
    ensures PlaysExactly(s, e, Next(s, e, now))
  {
    match e
    case SeekTo(position) => KeepaliveLands(KnownAt(s, Clamped(s, position)), Clamped(s, position), now);
    case SeekBy(delta) =>
      var p := Clamped(s, CurrentPosition(s, now) + delta);
      KeepaliveLands(KnownAt(s, p), p, now);
    case RecoverFromSeekStorm(position, _) => KeepaliveLands(KnownAt(s, Clamped(s, position)), Clamped(s, position),
        now);
    case _ =>
  }

  // Exactly those events start playback, and no other sets a probe on its way.
  lemma PlaysWhenStarted(s: State, e: Event, now: int)
    requires Inv(s) && Enabled(s, e) && !s.mode.playing
    ensures PlaysExactly(s, e, Next(s, e, now))
  {
    if IsControl(e) {
      ControlPlays(s, e, now);
    } else if e.KeepaliveFires? {
      KeepaliveStaysPaused(s.(alarms := s.alarms.(keepalive := false)), now);
    } else if e.OnEndOfFile? {
      var b := KnownAt(Stopped(s), s.settings.mediaDuration);
      KeepaliveLands(b, b.timeline.lastKnown, now);
    }
  }

  // A paused sender can start by itself if and only if a probe is pending.
  lemma ProbeDecides(s: State)
    requires Inv(s) && !s.mode.playing
    ensures s.mode.reentryPending <==> exists e :: Enabled(s, e) && StartsPlayback(s, e) && !TellsToPlay(e)
  {
    if s.mode.reentryPending {
      var e := OnVideoPacket(Packet(true, s.timeline.start, 0), Accepted);
      assert Enabled(s, e) && StartsPlayback(s, e) && !TellsToPlay(e);
    }
  }

  // Over every run from a paused state: the sender stays paused as long as none of these events happens,
  // and no longer.
  lemma {:induction false} StaysPaused(states: seq<State>, events: seq<Event>, times: seq<int>, n: nat)
    requires IsRun(states, events, times) && Inv(states[0]) && !states[0].mode.playing && n < |states|
    ensures (forall k :: 0 <= k <= n ==> !states[k].mode.playing)
            <==> (forall k :: 0 <= k < n ==> !StartsPlayback(states[k], events[k]))
  {
    if n > 0 {
      StaysPaused(states, events, times, n - 1);
      EveryRunKeeps(states, events, times, n - 1);
      assert Leads(states[n - 1], events[n - 1], times[n - 1], states[n - 1 + 1]);
      if !states[n - 1].mode.playing { PlaysWhenStarted(states[n - 1], events[n - 1], times[n - 1]); }
    }
  }

  predicate TellsToPlay(e: Event) { e.Play? || (e.RecoverFromSeekStorm? && e.resume) }

  // So a sender paused with no probe pending stays paused until it is told to play.
  lemma {:induction false} PausedWithoutProbe(states: seq<State>, events: seq<Event>, times: seq<int>, n: nat)
    requires IsRun(states, events, times) && Inv(states[0]) && n < |states|
    requires !states[0].mode.playing && !states[0].mode.reentryPending
    requires forall k :: 0 <= k < n ==> !TellsToPlay(events[k])
    ensures !states[n].mode.playing && !states[n].mode.reentryPending
  {
    if n > 0 {
      PausedWithoutProbe(states, events, times, n - 1);
      EveryRunKeeps(states, events, times, n - 1);
      assert Leads(states[n - 1], events[n - 1], times[n - 1], states[n - 1 + 1]);
      PlaysWhenStarted(states[n - 1], events[n - 1], times[n - 1]);
    }
  }

  // And with a probe pending it does not: the probe outlives the pause, and its next acceptable packet
  // starts playback again.
  lemma ProbeResumesAfterPause(s: State, p: Packet, answer: Answer, now: int, later: int)
    requires Inv(s) && s.mode.playing && s.mode.reentryPending && AcceptableReentry(s, p) && BeforeEnd(s, p.mediaTime)
    ensures var t := Paused(s, now);
            && Inv(t) && !t.mode.playing && Enabled(t, OnVideoPacket(p, answer))
            && PacketReceived(t, p, answer, later).mode.playing
  {
    PausedKeeps(s, now);
  }
}
