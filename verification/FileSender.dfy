/** The file sender as an object (cast/standalone_sender/controllable_file_sender.cc). Every entry point makes
    the step its specification names and keeps the invariant of every run. The encoder is an object of its own,
    made and given up by this one; the Sender is a value that moves between them, as its unique pointer does. */
module FileSenders {
  import opened Basics
  import opened RtpTime
  import opened RtpPath
  import opened FileSenderSpecs
  import opened MediaCodecEncoders

  class ControllableFileSender {
    const settings: Settings
    var brightness: int
    var viewport: Viewport
    var canPassthrough: bool
    var videoSender: Option<Sender>
    var videoEncoder: MediaCodecEncoder?
    var capturers: Capturers
    var timeline: Timeline
    var mode: Mode
    var alarms: Alarms
    var rtpOffset: int
    var pendingPacket: Option<Packet>

    ghost function Snapshot(): State
      reads this, videoEncoder
    {
      State(settings, brightness, viewport, canPassthrough,
            Owners(videoSender, if videoEncoder == null then None else Some(videoEncoder.Snapshot())),
            capturers, timeline, mode, alarms, rtpOffset, pendingPacket)
    }

    // No encoder but the one held before, or a new one.
    twostate predicate OwnEncoder()
      reads this
    {
      videoEncoder == null || videoEncoder == old(videoEncoder) || fresh(videoEncoder)
    }

    ghost predicate Valid()
      reads this, videoEncoder
    {
      Inv(Snapshot())
    }

    constructor (settings: Settings, brightness: int, sender: Option<Sender>, eligible: bool)
      ensures Snapshot() == Constructed(settings, brightness, sender, eligible)
      ensures sender.Some? && sender.value.timebase >= 16 && Increasing(sender.value.accepted) ==> Valid()
    {
      this.settings := settings;
      this.brightness, viewport := brightness, WHOLE_FRAME;
      videoSender, videoEncoder := sender, null;
      capturers, timeline, mode, alarms := NO_CAPTURERS, Timeline(0, 0, 0), NOT_PLAYING, Alarms(false, false);
      rtpOffset, pendingPacket := 0, None;
      canPassthrough := settings.includeVideo && sender.Some? && eligible;
      new;
      if !canPassthrough {
        EnsureVideoEncoderCreated();
      }
      if sender.Some? && sender.value.timebase >= 16 && Increasing(sender.value.accepted) {
        ConstructedKeeps(settings, brightness, sender.value, eligible);
      }
    }

    // ---------- Internal

    function ClampPosition(position: int): (r: int)
      ensures 0 <= r && (settings.mediaDuration > 0 ==> r <= settings.mediaDuration)
      ensures 0 <= position && (settings.mediaDuration > 0 ==> position <= settings.mediaDuration) ==> r == position
      ensures (position < r ==> r == 0) && (position > r ==> r == settings.mediaDuration)
    {
      if position < 0 then 0
      else if settings.mediaDuration > 0 && position > settings.mediaDuration then settings.mediaDuration
      else position
    }

    function GetCurrentPosition(now: int): (r: int)
      reads this, videoEncoder
      ensures r == CurrentPosition(Snapshot(), now)
    {
      if mode.playing then ClampPosition(timeline.start + Max(now - timeline.playbackStart, 0)) else timeline.lastKnown
    }

    method StopCapturers()
      modifies this
      ensures videoEncoder == old(videoEncoder)
      ensures Snapshot() == Stopped(old(Snapshot()))
    {
      alarms := Alarms(false, false);
      capturers := NO_CAPTURERS;
      pendingPacket := None;
      mode := NOT_PLAYING;
    }

    method EnsureVideoEncoderCreated()
      modifies this, videoEncoder
      ensures OwnEncoder()
      ensures Snapshot() == WithEncoder(old(Snapshot()))
    {
      if videoEncoder != null || videoSender.None? {
        return;
      }
      videoEncoder := new MediaCodecEncoder(videoSender.value);
      videoSender := None;
    }

    method ReclaimVideoSenderFromEncoder()
      modifies this, videoEncoder
      ensures OwnEncoder()
      ensures Snapshot() == old(Snapshot()).(owners := Reclaimed(old(Snapshot()).owners))
    {
      if videoEncoder == null {
        return;
      }
      videoSender := videoEncoder.ReleaseSender();
      videoEncoder := null;
    }

    method StartPlaybackAt(position: int, allowPassthrough: bool, now: int)
      modifies this, videoEncoder
      ensures OwnEncoder()
      ensures Snapshot() == PlaybackStarted(old(Snapshot()), position, allowPassthrough, now)
    {
      StopCapturers();
      if allowPassthrough && canPassthrough && Identity(viewport) && videoSender.None? && videoEncoder != null {
        ReclaimVideoSenderFromEncoder();
      }
      timeline := timeline.(start := ClampPosition(position), lastKnown := ClampPosition(position));
      if settings.mediaDuration > 0 && timeline.start >= settings.mediaDuration {
        return;
      }
      StartCapturers(allowPassthrough, now);
    }

    method StartCapturers(allowPassthrough: bool, now: int)
      requires capturers == NO_CAPTURERS && mode == NOT_PLAYING
      modifies this, videoEncoder
      ensures OwnEncoder()
      ensures Snapshot() == CapturersStarted(old(Snapshot()), allowPassthrough, now)
    {
      timeline := timeline.(playbackStart := now + settings.delay);
      capturers := capturers.(running := 1, audio := true);
      if allowPassthrough && CanStartVideoPassthroughAt(timeline.start) {
        capturers := capturers.(passthrough := true);
        mode := mode.(active := true);
      } else if settings.includeVideo {
        EnsureVideoEncoderCreated();
        capturers := capturers.(video := true);
        mode := mode.(active := false);
      } else {
        mode := mode.(active := false);
      }
      if settings.includeVideo {
        capturers := capturers.(running := capturers.running + 1);
      }
      mode := mode.(playing := true);
    }

    function CanStartVideoPassthroughAt(position: int): (r: bool)
      reads this, videoEncoder
      ensures r == CanStartPassthroughAt(Snapshot(), position)
    {
      settings.includeVideo && canPassthrough && brightness == 0 && (videoSender.Some? || videoEncoder != null)
          && Identity(viewport)
      && (settings.mediaDuration <= 0 || position < settings.mediaDuration)
    }

    method SchedulePausedKeepalive()
      modifies this
      ensures videoEncoder == old(videoEncoder)
      ensures Snapshot() == KeepaliveScheduled(old(Snapshot()))
    {
      alarms := alarms.(keepalive := false);
      if mode.playing {
        return;
      }
      alarms := alarms.(keepalive := true);
    }

    method StartPausedKeepaliveAt(position: int, now: int)
      modifies this, videoEncoder
      ensures OwnEncoder()
      ensures Snapshot() == PausedKeepalive(old(Snapshot()), position, now)
      decreases 1
    {
      StopCapturers();
      if canPassthrough && Identity(viewport) && videoSender.Some? && videoEncoder == null {
        timeline := Timeline(ClampPosition(position), ClampPosition(position), now + settings.delay);
        capturers := capturers.(running := 0);
        mode := mode.(playing := false, active := false);
        SchedulePausedKeepalive();
        return;
      }
      EnsureVideoEncoderCreated();
      timeline := Timeline(ClampPosition(position), ClampPosition(position), now + settings.delay);
      capturers := capturers.(video := true, running := 1);
      mode := mode.(playing := false, active := false);
      SendPausedKeepaliveFrame(now);
    }

    method SendPausedKeepaliveFrame(now: int)
      modifies this, videoEncoder
      ensures OwnEncoder()
      ensures Snapshot() == KeepaliveSent(old(Snapshot()), now)
      decreases if mode.playing || (!mode.active && capturers.video) then 0 else 3
    {
      if mode.playing {
        return;
      }
      if mode.active {
        FallbackToTranscode(timeline.lastKnown, false, false, now);
        return;
      }
      if !capturers.video {
        if canPassthrough && videoEncoder == null {
          FallbackToTranscode(timeline.lastKnown, false, false, now);
          return;
        }
        StartPausedKeepaliveAt(timeline.lastKnown, now);
        return;
      }
      SchedulePausedKeepalive();
    }

    method FallbackToTranscode(position: int, resume: bool, disable: bool, now: int)
      modifies this, videoEncoder
      ensures OwnEncoder()
      ensures Snapshot() == FellBack(old(Snapshot()), position, resume, disable, now)
      decreases 2
    {
      if !canPassthrough {
        return;
      }
      if disable {
        canPassthrough := false;
      }
      mode := mode.(active := false);
      EnsureVideoEncoderCreated();
      if resume {
        StartPlaybackAt(position, false, now);
        if !disable && canPassthrough && Identity(viewport) {
          StartPassthroughReentryProbe();
        }
      } else {
        StartPausedKeepaliveAt(position, now);
      }
    }

    method StartPassthroughReentryProbe()
      modifies this
      ensures videoEncoder == old(videoEncoder)
      ensures Snapshot() == ProbeStarted(old(Snapshot()))
    {
      if !canPassthrough || !Identity(viewport) || !mode.playing || (videoEncoder == null && videoSender.None?) {
        capturers := capturers.(probe := false);
        mode := mode.(reentryPending := false);
        return;
      }
      capturers := capturers.(probe := true);
      mode := mode.(reentryPending := true);
    }

    // ---------- Controls

    method Play(now: int)
      requires Valid()
      modifies this, videoEncoder
      ensures OwnEncoder()
      ensures Snapshot() == Next(old(Snapshot()), FileSenderSpecs.Play, now) && Advanced(old(Snapshot()), Snapshot())
    {
      NextKeeps(Snapshot(), FileSenderSpecs.Play, now);
      if mode.playing {
        return;
      }
      StartPlaybackAt(timeline.lastKnown, true, now);
    }

    method Pause(now: int)
      requires Valid()
      modifies this, videoEncoder
      ensures OwnEncoder()
      ensures Snapshot() == Next(old(Snapshot()), FileSenderSpecs.Pause, now) && Advanced(old(Snapshot()), Snapshot())
      ensures !mode.playing
    {
      NextKeeps(Snapshot(), FileSenderSpecs.Pause, now);
      PausedKeeps(Snapshot(), now);
      if mode.active {
        timeline := timeline.(lastKnown := GetCurrentPosition(now));
        FallbackToTranscode(timeline.lastKnown, false, false, now);
        return;
      }
      if !mode.playing {
        SchedulePausedKeepalive();
        return;
      }
      timeline := timeline.(lastKnown := GetCurrentPosition(now));
      mode := mode.(playing := false);
      SchedulePausedKeepalive();
    }

    method Stop(now: int)
      requires Valid()
      modifies this, videoEncoder
      ensures OwnEncoder()
      ensures Snapshot() == Next(old(Snapshot()), FileSenderSpecs.Stop, now) && Advanced(old(Snapshot()), Snapshot())
    {
      NextKeeps(Snapshot(), FileSenderSpecs.Stop, now);
      Pause(now);
      timeline := timeline.(lastKnown := 0);
    }

    method SeekTo(position: int, now: int)
      requires Valid()
      modifies this, videoEncoder
      ensures OwnEncoder()
      ensures Snapshot() == SoughtTo(old(Snapshot()), position, now) && Advanced(old(Snapshot()), Snapshot())
    {
      SoughtToKeeps(Snapshot(), position, now);
      timeline := timeline.(lastKnown := ClampPosition(position));
      if mode.active {
        if CanStartVideoPassthroughAt(timeline.lastKnown) {
          StartPlaybackAt(timeline.lastKnown, true, now);
        } else {
          FallbackToTranscode(timeline.lastKnown, mode.playing, false, now);
        }
        return;
      }
      if mode.playing {
        StartPlaybackAt(timeline.lastKnown, true, now);
      } else if capturers.video {
        SchedulePausedKeepalive();
      } else {
        StartPausedKeepaliveAt(timeline.lastKnown, now);
      }
    }

    method SeekBy(delta: int, now: int)
      requires Valid()
      modifies this, videoEncoder
      ensures OwnEncoder()
      ensures Snapshot() == SoughtTo(old(Snapshot()), CurrentPosition(old(Snapshot()), now) + delta, now)
      ensures Advanced(old(Snapshot()), Snapshot())
    {
      SeekTo(GetCurrentPosition(now) + delta, now);
    }

    method RecoverFromSeekStorm(position: int, resume: bool, now: int)
      requires Valid()
      modifies this, videoEncoder
      ensures OwnEncoder()
      ensures Snapshot() == Recovered(old(Snapshot()), position, resume, now) && Advanced(old(Snapshot()), Snapshot())
    {
      RecoveredKeeps(Snapshot(), position, resume, now);
      timeline := timeline.(lastKnown := ClampPosition(position));
      if resume {
        FallbackToTranscode(timeline.lastKnown, true, false, now);
      } else {
        StartPausedKeepaliveAt(timeline.lastKnown, now);
      }
    }

    method SetViewport(v: Viewport, now: int)
      requires Valid()
      modifies this, videoEncoder
      ensures OwnEncoder()
      ensures Snapshot() == ViewportSet(old(Snapshot()), v, now) && Advanced(old(Snapshot()), Snapshot())
    {
      ViewportSetKeeps(Snapshot(), v, now);
      viewport := ClampedViewport(v);
      if mode.active && !Identity(viewport) {
        FallbackToTranscode(GetCurrentPosition(now), mode.playing, false, now);
      }
    }

    method ResetViewport()
      requires Valid()
      modifies this, videoEncoder
      ensures OwnEncoder()
      ensures Snapshot() == old(Snapshot()).(viewport := WHOLE_FRAME) && Advanced(old(Snapshot()), Snapshot())
    {
      viewport := WHOLE_FRAME;
    }

    method SetBrightness(value: int, now: int)
      requires Valid()
      modifies this, videoEncoder
      ensures OwnEncoder()
      ensures Snapshot() == BrightnessSet(old(Snapshot()), value, now) && Advanced(old(Snapshot()), Snapshot())
    {
      BrightnessSetKeeps(Snapshot(), value, now);
      brightness := if value < -200 then -200 else if value > 200 then 200 else value;
      if mode.active && brightness != 0 {
        FallbackToTranscode(GetCurrentPosition(now), mode.playing, false, now);
      }
    }

    // ---------- Callbacks

    method FollowReference(reference: int)
      modifies this
      ensures videoEncoder == old(videoEncoder)
      ensures Snapshot() == Following(old(Snapshot()), reference)
    {
      if mode.playing {
        timeline := timeline.(lastKnown := ClampPosition(timeline.start + Max(reference - timeline.playbackStart, 0)));
      }
    }

    // A live decoding capturer always finds an encoder.
    method OnVideoFrame(reference: int, tooMuchInFlight: bool, input: Input)
      requires Valid() && capturers.video
      modifies this, videoEncoder
      ensures OwnEncoder()
      ensures old(videoEncoder) != null
      ensures Snapshot() == FrameEncoded(old(Snapshot()), reference, tooMuchInFlight, input)
      ensures Advanced(old(Snapshot()), Snapshot())
    {
      FrameEncodedKeeps(Snapshot(), reference, tooMuchInFlight, input);
      FollowReference(reference);
      videoEncoder.EncodeAndSend(reference, DEFAULT_STEP, tooMuchInFlight, input);
    }

    method OnVideoPacket(p: Packet, answer: Answer, now: int)
      requires Valid() && (capturers.passthrough || capturers.probe)
      modifies this, videoEncoder
      ensures OwnEncoder()
      ensures Snapshot() == PacketReceived(old(Snapshot()), p, answer, now) && Advanced(old(Snapshot()), Snapshot())
    {
      PacketReceivedKeeps(Snapshot(), p, answer, now);
      if mode.reentryPending && !mode.active {
        var preroll := if timeline.start > p.mediaTime then timeline.start - p.mediaTime else 0;
        if p.isKey && (p.mediaTime >= timeline.start || preroll <= MAX_REENTRY_PREROLL) {
          StartPlaybackAt(p.mediaTime, true, now);
        }
        return;
      }
      pendingPacket := Some(p);
      RetryPendingPassthroughPacket(answer, now);
    }

    // The adjusted timestamp always meets the Sender's own check.
    method GetAdjustedPassthroughRtpTimestamp(mediaTime: int) returns (rtp: int)
      requires videoSender.Some? && videoSender.value.timebase > 0
      modifies this`rtpOffset
      ensures (rtp, rtpOffset) == Adjusted(old(videoSender.value), old(rtpOffset), mediaTime)
      ensures videoSender.value.MayEnqueue(rtp) && rtpOffset >= old(rtpOffset)
    {
      var raw := FromDuration(mediaTime, videoSender.value.timebase);
      if !videoSender.value.NoFrameYet() {
        var last := videoSender.value.LastTimestamp();
        rtp := raw + rtpOffset;
        if rtp <= last {
          rtpOffset := (last - raw) + 1;
          rtp := raw + rtpOffset;
        }
        return;
      }
      rtp := raw + rtpOffset;
    }

    method OfferPacket(position: int, answer: Answer, now: int)
      requires pendingPacket.Some? && videoSender.Some? && videoSender.value.timebase > 0
      modifies this, videoEncoder
      ensures OwnEncoder()
      ensures Snapshot() == Answered(old(Snapshot()), position, answer, now)
    {
      var rtp := GetAdjustedPassthroughRtpTimestamp(pendingPacket.value.mediaTime);
      videoSender := Some(videoSender.value.Enqueue(rtp, answer == Accepted));
      match answer {
        case Accepted =>
          mode := mode.(backpressured := false);
          pendingPacket := None;
        case TooMuchInFlight =>
          mode := mode.(backpressured := true);
        case Failed =>
          pendingPacket := None;
          FallbackToTranscode(position, mode.playing, true, now);
      }
    }

    method RetryPendingPassthroughPacket(answer: Answer, now: int)
      requires videoSender.Some? ==> videoSender.value.timebase > 0
      modifies this, videoEncoder
      ensures OwnEncoder()
      ensures Snapshot() == Retried(old(Snapshot()), answer, now)
    {
      if pendingPacket.None? {
        return;
      }
      var p := pendingPacket.value;
      if videoSender.None? {
        pendingPacket := None;
        FallbackToTranscode(p.mediaTime, true, true, now);
        return;
      }
      alarms := alarms.(retry := false);
      var position := ClampPosition(timeline.start + Max(p.reference - timeline.playbackStart, 0));
      FollowReference(p.reference);
      OfferUnlessFirst(p, position, answer, now);
    }

    // The first frame of all must be a key frame.
    method OfferUnlessFirst(p: Packet, position: int, answer: Answer, now: int)
      requires pendingPacket == Some(p) && videoSender.Some? && videoSender.value.timebase > 0
      modifies this, videoEncoder
      ensures OwnEncoder()
      ensures Snapshot() == if old(videoSender.value.NoFrameYet()) && !p.isKey
              then FellBack(old(Snapshot()), position, true, true, now)
                            else Answered(old(Snapshot()), position, answer, now)
    {
      if videoSender.value.NoFrameYet() && !p.isKey {
        FallbackToTranscode(position, true, true, now);
        return;
      }
      OfferPacket(position, answer, now);
    }

    // The retry alarm.
    method OnRetry(answer: Answer, now: int)
      requires Valid() && alarms.retry
      modifies this, videoEncoder
      ensures OwnEncoder()
      ensures Snapshot() == Next(old(Snapshot()), RetryFires(answer), now) && Advanced(old(Snapshot()), Snapshot())
    {
      NextKeeps(Snapshot(), RetryFires(answer), now);
      alarms := alarms.(retry := false);
      RetryPendingPassthroughPacket(answer, now);
    }

    // The keepalive alarm.
    method OnKeepalive(now: int)
      requires Valid() && alarms.keepalive
      modifies this, videoEncoder
      ensures OwnEncoder()
      ensures Snapshot() == Next(old(Snapshot()), KeepaliveFires, now) && Advanced(old(Snapshot()), Snapshot())
    {
      NextKeeps(Snapshot(), KeepaliveFires, now);
      alarms := alarms.(keepalive := false);
      SendPausedKeepaliveFrame(now);
    }

    method OnEndOfFile(now: int)
      requires Valid()
      modifies this, videoEncoder
      ensures OwnEncoder()
      ensures Snapshot() == FileEnded(old(Snapshot()), now) && Advanced(old(Snapshot()), Snapshot())
    {
      FileEndedKeeps(Snapshot(), now);
      EndCapturer(now);
    }

    method EndCapturer(now: int)
      modifies this, videoEncoder
      ensures OwnEncoder()
      ensures Snapshot() == FileEnded(old(Snapshot()), now)
    {
      capturers := capturers.(running := capturers.running - 1);
      if capturers.running == 0 {
        StopCapturers();
        timeline := timeline.(lastKnown := settings.mediaDuration);
        StartPausedKeepaliveAt(timeline.lastKnown, now);
      }
    }

    // The end of the probe, or an error of it.
    method OnProbeEnd()
      requires Valid()
      modifies this, videoEncoder
      ensures OwnEncoder()
      ensures Snapshot() == ProbeEnded(old(Snapshot())) && Advanced(old(Snapshot()), Snapshot())
    {
      capturers := capturers.(probe := false);
      mode := mode.(reentryPending := false);
    }

    method OnPassthroughError(now: int)
      requires Valid()
      modifies this, videoEncoder
      ensures OwnEncoder()
      ensures Snapshot() == PassthroughFailed(old(Snapshot()), now) && Advanced(old(Snapshot()), Snapshot())
    {
      FellBackKeeps(Snapshot(), timeline.lastKnown, mode.playing, true, now);
      FallbackToTranscode(timeline.lastKnown, mode.playing, true, now);
    }

    method OnFrameCanceled()
      requires Valid()
      modifies this, videoEncoder
      ensures OwnEncoder()
      ensures Snapshot() == RetryScheduled(old(Snapshot())) && Advanced(old(Snapshot()), Snapshot())
    {
      if pendingPacket.Some? && mode.active {
        alarms := alarms.(retry := true);
      }
    }

    method OnAudioData(reference: int)
      requires Valid() && capturers.audio
      modifies this
      ensures videoEncoder == old(videoEncoder)
      ensures Snapshot() == Following(old(Snapshot()), reference) && Advanced(old(Snapshot()), Snapshot())
    {
      FollowReference(reference);
    }

    method OnCapturerError()
      requires Valid()
      modifies this
      ensures videoEncoder == old(videoEncoder)
      ensures Snapshot() == Stopped(old(Snapshot())) && Advanced(old(Snapshot()), Snapshot())
    {
      StopCapturers();
    }

    // ---------- What the encoder does meanwhile

    // The encoder's output thread.
    method OnCodecOutput(presentation: int, empty: bool)
      requires Valid() && videoEncoder != null && videoEncoder.inCodec > 0
      modifies videoEncoder
      ensures Snapshot() == Next(old(Snapshot()), CodecOutput(presentation, empty), 0)
              && Advanced(old(Snapshot()), Snapshot())
    {
      CodecKeeps(Snapshot(), CodecOutput(presentation, empty), 0);
      videoEncoder.OutputFrame(presentation, empty);
    }

    // The encoder's posted task.
    method OnEncodedFrame(ok: bool)
      requires Valid() && videoEncoder != null && videoEncoder.posted != []
      modifies videoEncoder
      ensures Snapshot() == Next(old(Snapshot()), Deliver(ok), 0) && Advanced(old(Snapshot()), Snapshot())
    {
      CodecKeeps(Snapshot(), Deliver(ok), 0);
      videoEncoder.SendEncodedFrame(ok);
    }
  }
}
