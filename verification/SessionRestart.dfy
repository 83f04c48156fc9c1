/** The restart protocol between the JNI threads and the task runner
    (cast/standalone_sender/controlcast_jni.cpp). Every section under the mutex is one atomic step, and so
    are posting a task and starting a session; any number of JNI threads interleave with the one task
    runner thread. */
module SessionRestarts {
  const TWO_TO_64: int := 0x1_0000_0000_0000_0000

  // What the task read under the lock, with how many requests had then been counted.
  datatype Reading = Reading(target: string, path: string, generation: nat, requests: nat)

  // Where the running restart task stands.
  datatype Task = NotRunning | AtTop | Read(reading: Reading) | Started(reading: Reading)

  datatype State = State(
    target: string,
    path: string,
    generation: nat,              // a 64-bit unsigned counter
    posted: bool,
    posting: nat,                 // threads between the lock and PostTask
    queued: nat,                  // restart tasks in the task runner's queue
    task: Task,
    requests: nat,                // how often the generation was incremented
    sessions: seq<Reading>)       // what each session was started from

  const INITIAL := State("", "", 0, false, 0, 0, NotRunning, 0, [])

  // ---------- Steps

  // RequestCastSessionRestart, up to the end of the locked section.
  function Requested(s: State): State {
    if s.target == "" || s.path == "" then s
    else
      var a := s.(generation := (s.generation + 1) % TWO_TO_64, requests := s.requests + 1);
      if a.posted then a else a.(posted := true, posting := a.posting + 1)
  }

  function Posted(s: State): State
    requires s.posting > 0
  {
    s.(posting := s.posting - 1, queued := s.queued + 1)
  }

  function Begun(s: State): State
    requires s.task == NotRunning && s.queued > 0
  {
    s.(queued := s.queued - 1, task := AtTop)
  }

  function SnapshotTaken(s: State): State
    requires s.task == AtTop
  {
    s.(task := Read(Reading(s.target, s.path, s.generation, s.requests)))
  }

  // The target names no port: the task gives up.
  function Refused(s: State): State
    requires s.task.Read?
  {
    s.(posted := false, task := NotRunning)
  }

  function SessionStarted(s: State): State
    requires s.task.Read?
  {
    s.(sessions := s.sessions + [s.task.reading], task := Started(s.task.reading))
  }

  function Rechecked(s: State): State
    requires s.task.Started?
  {
    if s.task.reading.generation != s.generation then s.(task := AtTop)
    else s.(posted := false, task := NotRunning)
  }

  // ---------- The invariant

  function Outstanding(s: State): nat {
    s.posting + s.queued + if s.task.NotRunning? then 0 else 1
  }

  // How many requests the latest session's settings were read after.
  function Latest(s: State): nat {
    if s.sessions == [] then 0 else s.sessions[|s.sessions| - 1].requests
  }

  // A session was started from what held at or after the latest request.
  predicate Served(s: State) { Latest(s) >= s.requests }

  predicate Genuine(s: State, r: Reading) {
    r.generation == r.requests % TWO_TO_64 && 0 < r.requests <= s.requests
  }

  ghost predicate Inv(s: State) {
    && Outstanding(s) == (if s.posted then 1 else 0)
    && s.generation == s.requests % TWO_TO_64
    && (s.posted ==> s.requests > 0)
    && (s.task.Read? || s.task.Started? ==> Genuine(s, s.task.reading))
    && (forall i :: 0 <= i < |s.sessions| ==> s.sessions[i].requests <= Latest(s))
    && Latest(s) <= s.requests
    // Before the task has started a session of its own, what is wanted is newer than any session.
    && match s.task {
         case Started(r) => s.sessions != [] && s.sessions[|s.sessions| - 1] == r
         case Read(r) => Latest(s) < r.requests
         case _ => s.posted ==> Latest(s) < s.requests
       }
  }

  datatype Step =
    | SetTarget(target: string)
    | SetPath(path: string)
    | Request
    | Post
    | Begin
    | TakeSnapshot
    | Refuse
    | StartSession
    | Recheck

  // Whether a target names a port is for `parses` to say.
  predicate Enabled(s: State, step: Step, parses: string -> bool) {
    match step
    case Post => s.posting > 0
    case Begin => s.task == NotRunning && s.queued > 0
    case TakeSnapshot => s.task == AtTop
    case Refuse => s.task.Read? && !parses(s.task.reading.target)
    case StartSession => s.task.Read? && parses(s.task.reading.target)
    case Recheck => s.task.Started?
    case _ => true
  }

  function Next(s: State, step: Step, parses: string -> bool): State
    requires Enabled(s, step, parses)
  {
    match step
    case SetTarget(target) => s.(target := target)
    case SetPath(path) => s.(path := path)
    case Request => Requested(s)
    case Post => Posted(s)
    case Begin => Begun(s)
    case TakeSnapshot => SnapshotTaken(s)
    case Refuse => Refused(s)
    case StartSession => SessionStarted(s)
    case Recheck => Rechecked(s)
  }

  // ---------- What every step keeps

  lemma WrapNext(n: nat)
    ensures (n % TWO_TO_64 + 1) % TWO_TO_64 == (n + 1) % TWO_TO_64
  {
  }

  lemma RequestedKeeps(s: State)
    requires Inv(s)
    ensures Inv(Requested(s))
  {
    WrapNext(s.requests);
  }

  lemma SameGeneration(a: nat, b: nat)
    requires a <= b
    ensures a % TWO_TO_64 == b % TWO_TO_64 <==> (b - a) % TWO_TO_64 == 0
  {
  }

  // When the task clears the flag, its session was started from what the latest request wants if and
  // only if fewer than 2^64 requests came in since it read the settings.
  lemma RecheckServes(s: State)
    requires Inv(s) && s.task.Started? && !Rechecked(s).posted
    ensures Served(Rechecked(s)) <==> s.requests - s.task.reading.requests < TWO_TO_64
  {
    SameGeneration(s.task.reading.requests, s.requests);
  }

  // A newer request is seen, again unless 2^64 of them make the counter come round.
  lemma RecheckSeesNewer(s: State)
    requires Inv(s) && s.task.Started?
    ensures Rechecked(s).posted <==> (s.requests - s.task.reading.requests) % TWO_TO_64 != 0
  {
    SameGeneration(s.task.reading.requests, s.requests);
  }

  // Giving up on a target always leaves the latest request unserved.
  lemma RefusalLoses(s: State)
    requires Inv(s) && s.task.Read?
    ensures !Refused(s).posted && !Served(Refused(s))
  {
  }

  lemma StepKeeps(s: State, step: Step, parses: string -> bool)
    requires Inv(s) && Enabled(s, step, parses)
    ensures Inv(Next(s, step, parses))
  {
    match step
    case Request => RequestedKeeps(s);
    case Recheck => RecheckSeesNewer(s);
    case _ =>
  }

  // ---------- Every run

  ghost predicate IsRun(states: seq<State>, steps: seq<Step>, parses: string -> bool) {
    && |states| == |steps| + 1 && states[0] == INITIAL
    && forall i :: 0 <= i < |steps|
        ==> Enabled(states[i], steps[i], parses) && states[i + 1] == Next(states[i], steps[i], parses)
  }

  // At most one restart task is ever between its posting and its end, and there is one exactly while
  // the flag is set.
  lemma {:induction false} EveryRunKeeps(states: seq<State>, steps: seq<Step>, parses: string -> bool, n: nat)
    requires IsRun(states, steps, parses) && n < |states|
    ensures Inv(states[n])
  {
    if n > 0 {
      EveryRunKeeps(states, steps, parses, n - 1);
      StepKeeps(states[n - 1], steps[n - 1], parses);
    }
  }

  // The requests counted since the task read what it started the session from.
  function Gap(s: State): int {
    if s.task.Started? then s.requests - s.task.reading.requests else 0
  }

  // Wherever in a run the flag comes down, the latest request is served if and only if it was the check
  // after a session that took it down and fewer than 2^64 requests had come in meanwhile.
  lemma FlagComesDown(states: seq<State>, steps: seq<Step>, parses: string -> bool, n: nat)
    requires IsRun(states, steps, parses) && n < |steps| && states[n].posted && !states[n + 1].posted
    ensures Served(states[n + 1]) <==> steps[n] == Recheck && Gap(states[n]) < TWO_TO_64
  {
    EveryRunKeeps(states, steps, parses, n);
    if steps[n] == Recheck { RecheckServes(states[n]); }
  }

  // So no coalesced request is lost where targets parse: with the flag down, the latest is served.
  lemma {:induction false} NoRequestLost(states: seq<State>, steps: seq<Step>, parses: string -> bool, n: nat)
    requires IsRun(states, steps, parses) && n < |states|
    requires forall i :: 0 <= i < |steps| ==> steps[i] != Refuse && Gap(states[i]) < TWO_TO_64
    ensures !states[n].posted ==> Served(states[n])
  {
    if n > 0 {
      EveryRunKeeps(states, steps, parses, n - 1);
      NoRequestLost(states, steps, parses, n - 1);
      if states[n - 1].posted && !states[n].posted { FlagComesDown(states, steps, parses, n - 1); }
    }
  }

  // ---------- What a session is started with

  // The settings are ones that held together at some point of the run, when as many requests had been made.
  ghost predicate HeldAt(states: seq<State>, n: nat, r: Reading) {
    exists k :: 0 <= k <= n < |states| && states[k].target == r.target && states[k].path == r.path
      && states[k].requests == r.requests
  }

  ghost predicate ReadingsHeld(states: seq<State>, n: nat)
    requires n < |states|
  {
    && (states[n].task.Read? || states[n].task.Started? ==> HeldAt(states, n, states[n].task.reading))
    && forall i :: 0 <= i < |states[n].sessions| ==> HeldAt(states, n, states[n].sessions[i])
  }

  lemma HeldStays(states: seq<State>, n: nat, r: Reading)
    requires n + 1 < |states| && HeldAt(states, n, r)
    ensures HeldAt(states, n + 1, r)
  {
  }

  // Every reading and every session of a run is of settings that held.
  lemma {:induction false} EveryReadingHeld(states: seq<State>, steps: seq<Step>, parses: string -> bool, n: nat)
    requires IsRun(states, steps, parses) && n < |states|
    ensures ReadingsHeld(states, n)
  {
    if n > 0 {
      var m := n - 1;
      EveryReadingHeld(states, steps, parses, m);
      var s, t := states[m], states[m + 1];
      assert Enabled(s, steps[m], parses) && t == Next(s, steps[m], parses);
      if s.task.Read? || s.task.Started? { HeldStays(states, m, s.task.reading); }
      forall i | 0 <= i < |s.sessions| ensures HeldAt(states, n, s.sessions[i]) { HeldStays(states, m, s.sessions[i]); }
      if steps[m] == TakeSnapshot {
        assert states[m].target == t.task.reading.target && states[m].path == t.task.reading.path;
        assert HeldAt(states, n, t.task.reading);
      }
    }
  }

  // With the flag down after a request, where targets parse, the last session was started with a target and a
  // path that held together at or after the latest request.
  lemma ServedAsAsked(states: seq<State>, steps: seq<Step>, parses: string -> bool, n: nat) returns (k: nat)
    requires IsRun(states, steps, parses) && n < |states| && !states[n].posted && states[n].requests > 0
    requires forall i :: 0 <= i < |steps| ==> steps[i] != Refuse && Gap(states[i]) < TWO_TO_64
    ensures k <= n && states[k].requests == states[n].requests && states[n].sessions != []
    ensures var r := states[n].sessions[|states[n].sessions| - 1];
            r.target == states[k].target && r.path == states[k].path
  {
    NoRequestLost(states, steps, parses, n);
    EveryRunKeeps(states, steps, parses, n);
    EveryReadingHeld(states, steps, parses, n);
    var r := states[n].sessions[|states[n].sessions| - 1];
    assert HeldAt(states, n, r);
    k :| 0 <= k <= n && states[k].target == r.target && states[k].path == r.path && states[k].requests == r.requests;
  }

  // So if neither was changed since that request, it was started with the target and the path of now.
  lemma ServedAsOfNow(states: seq<State>, steps: seq<Step>, parses: string -> bool, n: nat)
    requires IsRun(states, steps, parses) && n < |states| && !states[n].posted && states[n].requests > 0
    requires forall i :: 0 <= i < |steps| ==> steps[i] != Refuse && Gap(states[i]) < TWO_TO_64
    requires forall k :: 0 <= k <= n && states[k].requests == states[n].requests ==>
               states[k].target == states[n].target && states[k].path == states[n].path
    ensures states[n].sessions != []
    ensures var r := states[n].sessions[|states[n].sessions| - 1];
            r.target == states[n].target && r.path == states[n].path
  {
    var k := ServedAsAsked(states, steps, parses, n);
  }

  // A request counts exactly if there is somewhere to play and something to play.
  lemma RequestCounts(s: State)
    ensures Requested(s).requests == s.requests + if s.target != "" && s.path != "" then 1 else 0
    ensures Requested(s).target == s.target && Requested(s).path == s.path && Requested(s).sessions == s.sessions
  {
  }

  // ---------- Left to itself, the task runner serves the latest request

  function Rank(s: State): nat {
    if !s.posted then 0
    else if s.posting > 0 then 9
    else if s.queued > 0 then 8
    else match s.task
      case NotRunning => 0
      case AtTop => 5
      case Read(r) => if r.generation == s.generation then 4 else 7
      case Started(r) => if r.generation == s.generation then 3 else 6
  }

  function RunnerStep(s: State): Step {
    if s.posting > 0 then Post
    else if s.task == NotRunning then Begin
    else if s.task == AtTop then TakeSnapshot
    else if s.task.Read? then StartSession
    else Recheck
  }

  // The settings of now, or the ones the running task has read already.
  predicate IsFor(s: State, r: Reading) {
    (r.target == s.target && r.path == s.path) || ((s.task.Read? || s.task.Started?) && s.task.reading == r)
  }

  ghost function Finished(s: State, parses: string -> bool): (t: State)
    requires Inv(s) && parses(s.target) && (s.task.Read? ==> parses(s.task.reading.target))
    ensures Inv(t) && !t.posted && t.requests == s.requests && t.target == s.target && t.path == s.path
    ensures s.posted && s.requests < TWO_TO_64 ==>
              Served(t) && t.sessions != [] && IsFor(s, t.sessions[|t.sessions| - 1])
    decreases Rank(s)
  {
    if !s.posted then s
    else
      StepKeeps(s, RunnerStep(s), parses);
      var t := Next(s, RunnerStep(s), parses);
      if t.posted then Finished(t, parses)
      else RecheckServes(s); t
  }

  // ---------- The exception

  function Requests(s: State, n: nat): State {
    if n == 0 then s else Requested(Requests(s, n - 1))
  }

  lemma {:induction false} RequestsCount(s: State, n: nat)
    requires Inv(s) && s.posted && s.target != "" && s.path != ""
    ensures var t := Requests(s, n);
            Inv(t) && t == s.(requests := s.requests + n, generation := (s.requests + n) % TWO_TO_64)
  {
    if n > 0 {
      RequestsCount(s, n - 1);
      RequestedKeeps(Requests(s, n - 1));
      WrapNext(s.requests + n - 1);
    }
  }

  // Any positive multiple of 2^64 requests while a session starts leaves the counter where it was, and
  // all of them are lost.
  lemma WrappedRequestsAreLost(s: State, n: nat)
    requires Inv(s) && s.task.Started? && s.target != "" && s.path != ""
    requires s.task.reading.requests == s.requests
    requires n > 0 && n % TWO_TO_64 == 0
    ensures var t := Requests(s, n);
            t.task.Started? && !Rechecked(t).posted && !Served(Rechecked(t)) && Rechecked(t).requests == s.requests + n
  {
    RequestsCount(s, n);
    SameGeneration(s.requests, s.requests + n);
  }

  // ---------- The object

  datatype Phase = Off | Top | HasRead | HasStarted

  class ControllerState {
    var target: string
    var videoPath: string
    var desiredSessionGeneration: nat
    var sessionRestartPosted: bool
    // The restart task: what of it is queued, how far it is, and its local variables.
    var queued: nat
    var phase: Phase
    var currentTarget: string
    var currentVideoPath: string
    var generation: nat
    ghost var posting: nat
    ghost var requests: nat
    ghost var readAt: nat
    ghost var sessions: seq<Reading>

    ghost function Locals(): Reading
      reads this
    {
      Reading(currentTarget, currentVideoPath, generation, readAt)
    }

    ghost function Snapshot(): State
      reads this
    {
      State(target, videoPath, desiredSessionGeneration, sessionRestartPosted, posting, queued,
            match phase
            case Off => NotRunning
            case Top => AtTop
            case HasRead => Read(Locals())
            case HasStarted => Started(Locals()),
            requests, sessions)
    }

    ghost predicate Valid()
      reads this
    {
      Inv(Snapshot())
    }

    constructor ()
      ensures Valid() && Snapshot() == INITIAL
    {
      target, videoPath, desiredSessionGeneration := "", "", 0;
      sessionRestartPosted, queued, phase := false, 0, Off;
      posting, requests, sessions := 0, 0, [];
    }

    method SetTarget(value: string)
      requires Valid()
      modifies this`target
      ensures Valid() && Snapshot() == old(Snapshot()).(target := value)
    {
      target := value;
    }

    method SetVideoPath(value: string)
      requires Valid()
      modifies this`videoPath
      ensures Valid() && Snapshot() == old(Snapshot()).(path := value)
    {
      videoPath := value;
    }

    // The caller posts the task next if `post`.
    method RequestCastSessionRestart() returns (post: bool)
      requires Valid()
      modifies this
      ensures Valid() && Snapshot() == Requested(old(Snapshot()))
      ensures post <==> posting > old(posting)
    {
      RequestedKeeps(Snapshot());
      post := false;
      if target == "" || videoPath == "" {
        return;
      }
      desiredSessionGeneration := (desiredSessionGeneration + 1) % TWO_TO_64;
      requests := requests + 1;
      if sessionRestartPosted {
        return;
      }
      sessionRestartPosted := true;
      posting := posting + 1;
      post := true;
    }

    method PostTask()
      requires Valid() && posting > 0
      modifies this
      ensures Valid() && Snapshot() == Posted(old(Snapshot()))
    {
      queued := queued + 1;
      posting := posting - 1;
    }

    method BeginTask()
      requires Valid() && phase == Off && queued > 0
      modifies this
      ensures Valid() && Snapshot() == Begun(old(Snapshot()))
    {
      queued := queued - 1;
      phase := Top;
    }

    method TakeSnapshot()
      requires Valid() && phase == Top
      modifies this
      ensures Valid() && Snapshot() == SnapshotTaken(old(Snapshot()))
    {
      currentTarget := target;
      currentVideoPath := videoPath;
      generation := desiredSessionGeneration;
      readAt := requests;
      phase := HasRead;
    }

    method RefuseTarget()
      requires Valid() && phase == HasRead
      modifies this
      ensures Valid() && Snapshot() == Refused(old(Snapshot()))
    {
      sessionRestartPosted := false;
      phase := Off;
    }

    method StartSession()
      requires Valid() && phase == HasRead
      modifies this
      ensures Valid() && Snapshot() == SessionStarted(old(Snapshot()))
    {
      sessions := sessions + [Locals()];
      phase := HasStarted;
    }

    method Recheck() returns (needsAnotherPass: bool)
      requires Valid() && phase == HasStarted
      modifies this
      ensures Valid() && Snapshot() == Rechecked(old(Snapshot()))
      ensures needsAnotherPass <==> (requests - readAt) % TWO_TO_64 != 0
    {
      RecheckSeesNewer(Snapshot());
      needsAnotherPass := generation != desiredSessionGeneration;
      if needsAnotherPass {
        phase := Top;
      } else {
        sessionRestartPosted := false;
        phase := Off;
      }
    }
  }
}
