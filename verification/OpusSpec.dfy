/** Chunking and timestamp repair of the audio encoder (cast/standalone_sender/streaming_opus_encoder.cc),
    as steps of one state. What the Opus library makes of a frame, and whether the Sender takes it, has no
    effect on the steps. A sample value is a real number that is only copied; one sample of every channel
    together is a tuple. */
module OpusSpecs {
  import opened Basics
  import opened RtpTime

  datatype Format = Format(channels: nat, sampleRate: int, framesPerSecond: int) {
    // What the constructor checks of its arguments. It then stops if the Opus library refuses them.
    predicate Valid() {
      && channels > 0 && framesPerSecond > 0
      && sampleRate % framesPerSecond == 0 && sampleRate / framesPerSecond > 0
      && ONE_SECOND / framesPerSecond > 0
    }

    // The channels and sampling rates the library's encoder can be initialized with.
    predicate LibraryAccepts() {
      1 <= channels <= 2 && sampleRate in {8000, 12000, 16000, 24000, 48000}
    }

    function FrameTuples(): (n: int)
      requires Valid()
      ensures n > 0
    {
      sampleRate / framesPerSecond
    }

    function FrameDuration(): (d: int)
      requires Valid()
      ensures d > 0
    {
      ONE_SECOND / framesPerSecond
    }

    // Array elements of `n` tuples.
    function Elements(n: nat): nat { channels * n }

    lemma RateIsPositive()
      requires Valid()
      ensures sampleRate > 0
    {
    }
  }

  // What became of a stretch of the input: handed to the Sender as one frame, or dropped by a skip that
  // moved the RTP timestamp of the next frame.
  datatype Entry =
    | Frame(rtp: int, reference: int, samples: seq<real>)
    | Skip(from: int, to: int, samples: seq<real>)

  datatype State = State(
    start: Option<int>,        // reference time of the first call, less the codec delay
    codecDelay: int,
    rtp: int,                  // of the next frame
    reference: int,            // of the next frame
    lastSent: int,             // reference time of the last frame
    tuples: nat,               // queued
    queued: seq<real>,
    entries: seq<Entry>,
    received: seq<real>)       // all input so far

  const MAX_FRAMES_BEFORE_SKIP: int := 3

  // ---------- Steps

  function SkipThreshold(f: Format): int
    requires f.Valid()
  {
    f.FrameTuples() * MAX_FRAMES_BEFORE_SKIP
  }

  // Where the reference time says the stream should be.
  function ReferencePosition(f: Format, s: State, time: int): int
    requires f.Valid() && s.start.Some?
  {
    f.RateIsPositive();
    FromDuration(time - s.codecDelay - s.start.value, f.sampleRate)
  }

  function Lag(f: Format, s: State, time: int): int
    requires f.Valid() && s.start.Some?
  {
    ReferencePosition(f, s, time) - (s.rtp + s.tuples)
  }

  function SkippedAhead(f: Format, s: State, time: int): State
    requires f.Valid() && s.start.Some?
  {
    if Lag(f, s, time) <= SkipThreshold(f) then s
    else
      var to := ReferencePosition(f, s, time);
      s.(tuples := 0, queued := [], rtp := to, entries := s.entries + [Skip(s.rtp, to, s.queued)])
  }

  // The first tick after the last frame sent.
  function LowerBound(f: Format, s: State): int
    requires f.Valid()
  {
    f.RateIsPositive();
    s.lastSent + ToDuration(1, f.sampleRate)
  }

  // ResolveTimestampsAndMaybeSkip
  function Resolved(f: Format, s: State, time: int): State
    requires f.Valid()
  {
    if s.start.None? then
      var begin := time - s.codecDelay;
      s.(start := Some(begin), rtp := 0, reference := begin, lastSent := begin - f.FrameDuration())
    else
      f.RateIsPositive();
      var b := SkippedAhead(f, s, time);
      var wanted := time - s.codecDelay - ToDuration(b.tuples, f.sampleRate);
      b.(reference := if wanted < LowerBound(f, s) then LowerBound(f, s) else wanted)
  }

  // `n` more tuples are queued.
  function Queued(f: Format, s: State, x: seq<real>, n: nat): State {
    s.(tuples := s.tuples + n, queued := s.queued + x, received := s.received + x)
  }

  // A full queue becomes a frame.
  function Emitted(f: Format, s: State): State
    requires f.Valid()
  {
    s.(tuples := 0, queued := [], entries := s.entries + [Frame(s.rtp, s.reference, s.queued)],
       lastSent := s.reference, rtp := s.rtp + f.FrameTuples(), reference := s.reference + f.FrameDuration())
  }

  function Taken(f: Format, s: State, n: nat): (k: int)
    requires f.Valid()
  {
    if n < f.FrameTuples() - s.tuples then n else f.FrameTuples() - s.tuples
  }

  // The samples fill frame after frame; what is not enough for a frame stays queued.
  ghost function Fed(f: Format, s: State, x: seq<real>, n: nat): State
    requires f.Valid() && |x| == f.Elements(n) && s.tuples < f.FrameTuples()
    decreases n
  {
    if n == 0 then s
    else
      var k := Taken(f, s, n);
      ElementsSplit(f, n, k);
      var b := Queued(f, s, x[..f.Elements(k)], k);
      if b.tuples < f.FrameTuples() then b
      else Fed(f, Emitted(f, b), x[f.Elements(k)..], n - k)
  }

  lemma ElementsSplit(f: Format, n: nat, k: nat)
    requires k <= n
    ensures f.Elements(k) <= f.Elements(n) && f.Elements(n) - f.Elements(k) == f.Elements(n - k)
  {
    assert f.channels * n == f.channels * k + f.channels * (n - k);
  }

  // EncodeAndSend
  ghost function Encoded(f: Format, s: State, x: seq<real>, n: nat, time: int): State
    requires f.Valid() && |x| == f.Elements(n) && s.tuples < f.FrameTuples()
  {
    Fed(f, Resolved(f, s, time), x, n)
  }

  // ---------- What the entries say

  function Samples(entries: seq<Entry>): seq<real> {
    if entries == [] then [] else Samples(entries[..|entries| - 1]) + entries[|entries| - 1].samples
  }

  function Begins(e: Entry): int { if e.Frame? then e.rtp else e.from }

  function Ends(f: Format, e: Entry): int
    requires f.Valid()
  {
    if e.Frame? then e.rtp + f.FrameTuples() else e.to
  }

  function Position(f: Format, entries: seq<Entry>): int
    requires f.Valid()
  {
    if entries == [] then 0 else Ends(f, entries[|entries| - 1])
  }

  // One entry is of the right size and moves the timestamp by a frame, or by more than the threshold.
  predicate Sound(f: Format, e: Entry)
    requires f.Valid()
  {
    match e
    case Frame(_, _, samples) => |samples| == f.Elements(f.FrameTuples())
    case Skip(from, to, samples) => to - from > SkipThreshold(f) && |samples| < f.Elements(f.FrameTuples())
  }

  // An entry begins where the one before it ended.
  predicate Linked(f: Format, entries: seq<Entry>, i: nat)
    requires f.Valid() && i < |entries|
  {
    Sound(f, entries[i]) && Begins(entries[i]) == if i == 0 then 0 else Ends(f, entries[i - 1])
  }

  ghost predicate Chained(f: Format, entries: seq<Entry>)
    requires f.Valid()
  {
    forall i :: 0 <= i < |entries| ==> Linked(f, entries, i)
  }

  // Frames are at or before `last`, in strictly increasing order of their reference times.
  ghost predicate Increasing(entries: seq<Entry>, last: int) {
    && (forall i :: 0 <= i < |entries| && entries[i].Frame? ==> entries[i].reference <= last)
    && (forall i, j :: 0 <= i < j < |entries| && entries[i].Frame? && entries[j].Frame? ==>
          entries[i].reference < entries[j].reference)
  }

  ghost predicate Inv(f: Format, s: State) {
    && f.Valid()
    && s.tuples < f.FrameTuples() && |s.queued| == f.Elements(s.tuples)
    && Samples(s.entries) + s.queued == s.received
    && Chained(f, s.entries) && s.rtp == Position(f, s.entries)
    && (s.start.None? ==> s.entries == [] && s.queued == [] && s.tuples == 0)
  }

  // Over a run, what is kept besides, where a tick lasts at least a microsecond.
  ghost predicate TimesInv(s: State) {
    Increasing(s.entries, s.lastSent)
  }

  // ---------- What every step keeps

  lemma ChainedExtend(f: Format, entries: seq<Entry>, e: Entry)
    requires f.Valid() && Chained(f, entries) && Sound(f, e) && Begins(e) == Position(f, entries)
    ensures Chained(f, entries + [e]) && Position(f, entries + [e]) == Ends(f, e)
    ensures Samples(entries + [e]) == Samples(entries) + e.samples
  {
    var longer := entries + [e];
    assert longer[..|entries|] == entries;
    forall i | 0 <= i < |longer| ensures Linked(f, longer, i) {
      if i < |entries| { assert Linked(f, entries, i); }
    }
  }

  lemma FewerElements(f: Format, k: nat, n: nat)
    requires f.Valid() && k < n
    ensures f.Elements(k) < f.Elements(n)
  {
    assert f.channels * n == f.channels * k + f.channels * (n - k);
  }

  lemma ResolvedKeeps(f: Format, s: State, time: int)
    requires Inv(f, s)
    ensures Inv(f, Resolved(f, s, time)) && Resolved(f, s, time).start.Some?
    ensures Lag(f, Resolved(f, s, time), time) <= SkipThreshold(f) == 3 * f.FrameTuples()
    ensures s.start.None? || Lag(f, s, time) > SkipThreshold(f) ==> Lag(f, Resolved(f, s, time), time) == 0
    ensures s.start.Some? && Lag(f, s, time) <= SkipThreshold(f) ==>
              Resolved(f, s, time) == s.(reference := Resolved(f, s, time).reference)
  {
    if s.start.Some? {
      if Lag(f, s, time) > SkipThreshold(f) {
        FewerElements(f, s.tuples, f.FrameTuples());
        ChainedExtend(f, s.entries, Skip(s.rtp, ReferencePosition(f, s, time), s.queued));
        Regroup(s.received, [], []);
      }
    } else {
      assert Samples([]) == [];
    }
  }

  lemma EmittedKeeps(f: Format, s: State)
    requires Inv(f, s.(tuples := 0, queued := [], received := Samples(s.entries))) && s.start.Some?
    requires s.tuples == f.FrameTuples() && |s.queued| == f.Elements(s.tuples)
    requires Samples(s.entries) + s.queued == s.received
    ensures Inv(f, Emitted(f, s)) && Emitted(f, s).start.Some?
  {
    ChainedExtend(f, s.entries, Frame(s.rtp, s.reference, s.queued));
    Regroup(s.received, [], []);
  }

  function QueuedOrEmitted(f: Format, s: State, x: seq<real>, n: nat): State
    requires f.Valid()
  {
    var b := Queued(f, s, x, n);
    if b.tuples < f.FrameTuples() then b else Emitted(f, b)
  }

  lemma QueuedKeeps(f: Format, s: State, x: seq<real>, n: nat)
    requires Inv(f, s) && s.start.Some? && |x| == f.Elements(n) && s.tuples + n <= f.FrameTuples()
    ensures var b := QueuedOrEmitted(f, s, x, n);
            Inv(f, b) && b.start.Some? && b.received == s.received + x
  {
    var b := Queued(f, s, x, n);
    Regroup(Samples(s.entries), s.queued, x);
    ElementsSplit(f, s.tuples + n, n);
    if b.tuples == f.FrameTuples() {
      Regroup(Samples(s.entries), [], []);
      EmittedKeeps(f, b);
    }
  }

  // Fed goes on from where one stretch of input leaves the queue.
  lemma FedStep(f: Format, s: State, x: seq<real>, n: nat)
    requires f.Valid() && |x| == f.Elements(n) && s.tuples < f.FrameTuples() && n > 0
    ensures var k := Taken(f, s, n);
            && 0 < k <= n && s.tuples + k <= f.FrameTuples() && f.Elements(k) <= |x|
            && |x[f.Elements(k)..]| == f.Elements(n - k)
            && QueuedOrEmitted(f, s, x[..f.Elements(k)], k).tuples < f.FrameTuples()
            && Fed(f, s, x, n) == Fed(f, QueuedOrEmitted(f, s, x[..f.Elements(k)], k), x[f.Elements(k)..], n - k)
  {
    ElementsSplit(f, n, Taken(f, s, n));
  }

  lemma {:induction false} FedKeeps(f: Format, s: State, x: seq<real>, n: nat)
    requires Inv(f, s) && s.start.Some? && |x| == f.Elements(n)
    ensures Inv(f, Fed(f, s, x, n))
    ensures Fed(f, s, x, n).received == s.received + x
    decreases n
  {
    if n == 0 {
      Regroup(s.received, x, []);
    } else {
      FedStep(f, s, x, n);
      var k := Taken(f, s, n);
      var y, rest := x[..f.Elements(k)], x[f.Elements(k)..];
      QueuedKeeps(f, s, y, k);
      FedKeeps(f, QueuedOrEmitted(f, s, y, k), rest, n - k);
      Regroup(s.received, y, rest);
      assert x == y + rest;
    }
  }

  // ---------- Reference times

  lemma IncreasingExtend(entries: seq<Entry>, last: int, e: Entry, now: int)
    requires Increasing(entries, last) && last <= now && (e.Frame? ==> last < e.reference == now)
    ensures Increasing(entries + [e], now)
  {
    var longer := entries + [e];
    forall i | 0 <= i < |entries| ensures longer[i] == entries[i] {}
  }

  lemma ResolvedTimes(f: Format, s: State, time: int)
    requires Inv(f, s) && TimesInv(s) && f.sampleRate <= 2_000_000
    ensures TimesInv(Resolved(f, s, time)) && Resolved(f, s, time).lastSent < Resolved(f, s, time).reference
  {
    TickLasts(f.sampleRate);
    if s.start.Some? && Lag(f, s, time) > SkipThreshold(f) {
      IncreasingExtend(s.entries, s.lastSent, Skip(s.rtp, ReferencePosition(f, s, time), s.queued), s.lastSent);
    }
  }

  lemma {:induction false} FedTimes(f: Format, s: State, x: seq<real>, n: nat)
    requires f.Valid() && |x| == f.Elements(n) && s.tuples < f.FrameTuples()
    requires TimesInv(s) && s.lastSent < s.reference
    ensures TimesInv(Fed(f, s, x, n))
    decreases n
  {
    if n > 0 {
      FedStep(f, s, x, n);
      var k := Taken(f, s, n);
      var b := Queued(f, s, x[..f.Elements(k)], k);
      if b.tuples >= f.FrameTuples() {
        IncreasingExtend(s.entries, s.lastSent, Frame(b.rtp, b.reference, b.queued), s.reference);
      }
      FedTimes(f, QueuedOrEmitted(f, s, x[..f.Elements(k)], k), x[f.Elements(k)..], n - k);
    }
  }

  // ---------- Every run

  datatype Call = Encode(x: seq<real>, tuples: nat, time: int) | ChangeCodecDelay(delay: int)

  predicate Allowed(f: Format, c: Call) {
    c.Encode? ==> c.tuples > 0 && |c.x| == f.Elements(c.tuples)
  }

  ghost function Next(f: Format, s: State, c: Call): State
    requires f.Valid() && s.tuples < f.FrameTuples() && Allowed(f, c)
  {
    match c
    case Encode(x, n, time) => Encoded(f, s, x, n, time)
    case ChangeCodecDelay(delay) => s.(codecDelay := delay)
  }

  function Initial(delay: int): State { State(None, delay, 0, 0, 0, 0, [], [], []) }

  function Inputs(calls: seq<Call>): seq<real> {
    if calls == [] then [] else
      var c := calls[|calls| - 1];
      Inputs(calls[..|calls| - 1]) + if c.Encode? then c.x else []
  }

  // The state after a run of calls.
  ghost function After(f: Format, delay: int, calls: seq<Call>): (s: State)
    requires f.Valid() && forall i :: 0 <= i < |calls| ==> Allowed(f, calls[i])
    ensures Inv(f, s) && s.received == Inputs(calls)
    ensures f.sampleRate <= 2_000_000 ==> TimesInv(s)
  {
    if calls == [] then Initial(delay)
    else
      var s := After(f, delay, calls[..|calls| - 1]);
      var c := calls[|calls| - 1];
      NextKeeps(f, s, c);
      Next(f, s, c)
  }

  lemma NextKeeps(f: Format, s: State, c: Call)
    requires Inv(f, s) && Allowed(f, c)
    ensures Inv(f, Next(f, s, c))
    ensures Next(f, s, c).received == s.received + if c.Encode? then c.x else []
    ensures f.sampleRate <= 2_000_000 && TimesInv(s) ==> TimesInv(Next(f, s, c))
  {
    match c
    case Encode(x, n, time) =>
      ResolvedKeeps(f, s, time);
      FedKeeps(f, Resolved(f, s, time), x, n);
      if f.sampleRate <= 2_000_000 && TimesInv(s) {
        ResolvedTimes(f, s, time);
        FedTimes(f, Resolved(f, s, time), x, n);
      }
    case ChangeCodecDelay(_) => Regroup(s.received, [], []);
  }

  // Every sample is accounted for: frames and skips in order, then the queue, are the input.
  lemma SamplesAreConserved(f: Format, delay: int, calls: seq<Call>)
    requires f.Valid() && forall i :: 0 <= i < |calls| ==> Allowed(f, calls[i])
    ensures var s := After(f, delay, calls);
            && Samples(s.entries) + s.queued == Inputs(calls)
            && |s.queued| < f.Elements(f.FrameTuples())
            && forall i :: 0 <= i < |s.entries| && s.entries[i].Frame?
                ==> |s.entries[i].samples| == f.Elements(f.FrameTuples())
  {
    var s := After(f, delay, calls);
    FewerElements(f, s.tuples, f.FrameTuples());
    forall i | 0 <= i < |s.entries| ensures Sound(f, s.entries[i]) { assert Linked(f, s.entries, i); }
  }

  // One entry moves the timestamp by a frame if it is one, and by more if it is a skip.
  lemma EntryAdvances(f: Format, entries: seq<Entry>, n: int, k: nat)
    requires f.Valid() && n == f.FrameTuples() && Chained(f, entries) && k + 1 < |entries|
    ensures Begins(entries[k + 1]) - Begins(entries[k]) >= n
    ensures Begins(entries[k + 1]) - Begins(entries[k]) == n <==> entries[k].Frame?
  {
    assert Linked(f, entries, k) && Linked(f, entries, k + 1);
  }

  // From one entry to a later one the timestamp advances by at least a frame each, and by exactly that
  // if and only if there is no skip among them.
  lemma ChainAdvances(f: Format, entries: seq<Entry>, n: int, i: nat, j: nat)
    requires f.Valid() && n == f.FrameTuples() && Chained(f, entries) && i <= j < |entries|
    ensures Begins(entries[j]) - Begins(entries[i]) >= n * (j - i)
    ensures Begins(entries[j]) - Begins(entries[i]) == n * (j - i) <==> forall k :: i <= k < j ==> entries[k].Frame?
  {
    var begins := seq(|entries|, k requires 0 <= k < |entries| => Begins(entries[k]));
    var plain := seq(|entries|, k requires 0 <= k < |entries| => entries[k].Frame?);
    forall k | 0 <= k < |entries| - 1
      ensures begins[k + 1] - begins[k] >= n
      ensures begins[k + 1] - begins[k] == n <==> plain[k]
    {
      EntryAdvances(f, entries, n, k);
    }
    Telescopes(begins, plain, n, i, j);
    assert begins[i] == Begins(entries[i]) && begins[j] == Begins(entries[j]);
    assert forall k :: 0 <= k < |entries| ==> plain[k] == entries[k].Frame?;
  }

  // So it is for the entries of every run.
  lemma TimestampsAdvance(f: Format, delay: int, calls: seq<Call>, n: int, i: nat, j: nat)
    requires f.Valid() && n == f.FrameTuples() && forall k :: 0 <= k < |calls| ==> Allowed(f, calls[k])
    requires i <= j < |After(f, delay, calls).entries|
    ensures var entries := After(f, delay, calls).entries;
            && Begins(entries[j]) - Begins(entries[i]) >= n * (j - i)
            && (Begins(entries[j]) - Begins(entries[i]) == n * (j - i)
                <==> forall k :: i <= k < j ==> entries[k].Frame?)
  {
    ChainAdvances(f, After(f, delay, calls).entries, n, i, j);
  }

  lemma {:induction false} Telescopes(marks: seq<int>, plain: seq<bool>, n: int, i: nat, j: nat)
    requires i <= j < |marks| == |plain|
    requires forall k :: 0 <= k < |marks| - 1 ==> marks[k + 1] - marks[k] >= n
    requires forall k :: 0 <= k < |marks| - 1 ==> (marks[k + 1] - marks[k] == n <==> plain[k])
    ensures marks[j] - marks[i] >= n * (j - i)
    ensures marks[j] - marks[i] == n * (j - i) <==> forall k :: i <= k < j ==> plain[k]
  {
    if i < j {
      Telescopes(marks, plain, n, i, j - 1);
      OneMore(n, j - i);
      assert marks[(j - 1) + 1] - marks[j - 1] >= n;
    }
  }

  lemma OneMore(n: int, count: int)
    ensures n * count == n * (count - 1) + n
  {
  }

  // For every encoder that can be constructed, over every run: frames are handed on with strictly increasing
  // reference times.
  lemma ReferenceTimesIncrease(f: Format, delay: int, calls: seq<Call>, i: nat, j: nat)
    requires f.Valid() && f.LibraryAccepts() && forall k :: 0 <= k < |calls| ==> Allowed(f, calls[k])
    requires i < j < |After(f, delay, calls).entries|
    ensures var entries := After(f, delay, calls).entries;
            entries[i].Frame? && entries[j].Frame? ==> entries[i].reference < entries[j].reference
  {
    assert TimesInv(After(f, delay, calls));
  }

  // ---------- Reference times

  // The reference time of the last frame among the entries, or one frame before the start if there is none.
  function LastReference(f: Format, start: int, entries: seq<Entry>): int
    requires f.Valid()
  {
    if entries == [] then start - f.FrameDuration()
    else if entries[|entries| - 1].Frame? then entries[|entries| - 1].reference
    else LastReference(f, start, entries[..|entries| - 1])
  }

  // The encoder remembers the reference time of the last frame it sent.
  ghost predicate Remembers(f: Format, s: State)
    requires f.Valid()
  {
    s.start.Some? ==> s.lastSent == LastReference(f, s.start.value, s.entries)
  }

  lemma LastReferenceExtend(f: Format, start: int, entries: seq<Entry>, e: Entry)
    requires f.Valid()
    ensures LastReference(f, start, entries + [e]) == if e.Frame? then e.reference else LastReference(f, start, entries)
  {
    assert (entries + [e])[..|entries|] == entries;
  }

  lemma ResolvedRemembers(f: Format, s: State, time: int)
    requires Inv(f, s) && Remembers(f, s)
    ensures Remembers(f, Resolved(f, s, time))
  {
    if s.start.Some? && Lag(f, s, time) > SkipThreshold(f) {
      LastReferenceExtend(f, s.start.value, s.entries, Skip(s.rtp, ReferencePosition(f, s, time), s.queued));
    }
  }

  lemma {:induction false} FedRemembers(f: Format, s: State, x: seq<real>, n: nat)
    requires f.Valid() && |x| == f.Elements(n) && s.tuples < f.FrameTuples() && Remembers(f, s)
    ensures Remembers(f, Fed(f, s, x, n))
    decreases n
  {
    if n > 0 {
      FedStep(f, s, x, n);
      var k := Taken(f, s, n);
      var b := Queued(f, s, x[..f.Elements(k)], k);
      if s.start.Some? { LastReferenceExtend(f, s.start.value, b.entries, Frame(b.rtp, b.reference, b.queued)); }
      FedRemembers(f, QueuedOrEmitted(f, s, x[..f.Elements(k)], k), x[f.Elements(k)..], n - k);
    }
  }

  lemma {:induction false} AfterRemembers(f: Format, delay: int, calls: seq<Call>)
    requires f.Valid() && forall i :: 0 <= i < |calls| ==> Allowed(f, calls[i])
    ensures Remembers(f, After(f, delay, calls))
    decreases |calls|
  {
    if calls != [] {
      AfterRemembers(f, delay, calls[..|calls| - 1]);
      var s, c := After(f, delay, calls[..|calls| - 1]), calls[|calls| - 1];
      if c.Encode? {
        ResolvedRemembers(f, s, c.time);
        ResolvedKeeps(f, s, c.time);
        FedRemembers(f, Resolved(f, s, c.time), c.x, c.tuples);
      }
    }
  }

  // The time of the first sample of the next frame: the call's time, less the codec's delay and what is queued.
  function CaptureTime(f: Format, s: State, time: int): int
    requires f.Valid()
  {
    f.RateIsPositive();
    time - s.codecDelay - ToDuration(s.tuples, f.sampleRate)
  }

  // In every run, the next frame is for the time of its first sample if that is at least a tick after the last
  // frame's, and for one tick after the last frame's otherwise.
  lemma ReferenceIsCaptureTime(f: Format, delay: int, calls: seq<Call>, time: int)
    requires f.Valid() && forall i :: 0 <= i < |calls| ==> Allowed(f, calls[i])
    ensures f.sampleRate > 0
    ensures var s := After(f, delay, calls);
            var t := Resolved(f, s, time);
            s.start.Some? ==>
              var earliest := LastReference(f, s.start.value, s.entries) + ToDuration(1, f.sampleRate);
              && (t.reference == CaptureTime(f, t, time) <==> CaptureTime(f, t, time) >= earliest)
              && (CaptureTime(f, t, time) < earliest ==> t.reference == earliest)
    ensures var s := After(f, delay, calls);
            s.start.None? ==> Resolved(f, s, time).reference == CaptureTime(f, s, time)
  {
    f.RateIsPositive();
    AfterRemembers(f, delay, calls);
    TickLasts(f.sampleRate);
  }

  // The frames a call completes begin with the next one, and their reference times follow each other by one frame.
  lemma {:induction false} FramesFollow(f: Format, s: State, x: seq<real>, n: nat, k: nat)
    requires f.Valid() && |x| == f.Elements(n) && s.tuples < f.FrameTuples()
    requires |s.entries| <= k < |Fed(f, s, x, n).entries|
    ensures var entries := Fed(f, s, x, n).entries;
            && entries[k].Frame?
            && (if k == |s.entries| then entries[k].rtp == s.rtp && entries[k].reference == s.reference
                else entries[k - 1].Frame? && entries[k].reference == entries[k - 1].reference + f.FrameDuration())
    decreases n
  {
    if n > 0 {
      FedStep(f, s, x, n);
      var took := Taken(f, s, n);
      var t, rest := QueuedOrEmitted(f, s, x[..f.Elements(took)], took), x[f.Elements(took)..];
      FedExtends(f, t, rest, n - took);
      if k > |s.entries| { FramesFollow(f, t, rest, n - took, k); }
    }
  }

  lemma {:induction false} FedExtends(f: Format, s: State, x: seq<real>, n: nat)
    requires f.Valid() && |x| == f.Elements(n) && s.tuples < f.FrameTuples()
    ensures s.entries <= Fed(f, s, x, n).entries
    decreases n
  {
    if n > 0 {
      FedStep(f, s, x, n);
      var k := Taken(f, s, n);
      FedExtends(f, QueuedOrEmitted(f, s, x[..f.Elements(k)], k), x[f.Elements(k)..], n - k);
    }
  }
}
