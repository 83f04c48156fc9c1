/** The coalescing of seeks (cast/standalone_sender/controlcast_jni.cpp): JNI threads put paused seeks in a
    queue that a drain task empties on the task runner, and post every other seek as a task of its own. Each
    section under the mutex is one atomic step; the task runner runs its tasks one at a time, in order.
    Whether a request counts as part of a seek storm depends on clocks and is an input. */
module PausedSeekSpecs {
  import opened Basics

  const CAPACITY: nat := 1

  // A seek, numbered in the order of the requests.
  datatype Seek = Seek(number: nat, position: int)

  datatype Task = Drain | Direct(seek: Seek) | Storm(seek: Seek) | Play | Disconnect | Connect

  // The drain task between its locked sections.
  datatype Drainer = NotRunning | Looping | Holding(seek: Seek)

  datatype State = State(
    queue: seq<Seek>,
    drainPosted: bool,
    playing: bool,
    agent: bool,             // whether a cast agent exists
    posting: seq<Task>,      // decided under the lock, not posted yet
    tasks: seq<Task>,        // the task runner's queue
    drainer: Drainer,
    requests: nat,
    executed: seq<Seek>)

  const INITIAL := State([], false, false, false, [], [], NotRunning, 0, [])

  // ---------- Steps of the JNI threads

  // A position is sought as it is, and one before the beginning at the beginning.
  function Clamped(position: int): (p: int)
    ensures p >= 0 && (position >= 0 ==> p == position) && (position <= 0 ==> p == 0)
  {
    if position < 0 then 0 else position
  }

  function Pushed(queue: seq<Seek>, seek: Seek): seq<Seek> {
    (if |queue| >= CAPACITY then queue[1..] else queue) + [seek]
  }

  function Enqueued(s: State, seek: Seek): State {
    var a := s.(queue := Pushed(s.queue, seek));
    if a.drainPosted then a else a.(drainPosted := true, tasks := a.tasks + [Drain])
  }

  // The locked section of nativeSeekTo, and what is left to post after it.
  function Requested(s: State, position: int, storm: bool): State {
    var seek := Seek(s.requests, Clamped(position));
    var a := s.(requests := s.requests + 1);
    var b := if storm then a.(queue := [], drainPosted := false, playing := true) else a;
    var c := if s.playing then b else Enqueued(b, seek);
    c.(posting := c.posting + if storm then [Storm(seek)] else if s.playing then [Direct(seek)] else [])
  }

  function Posted(s: State, i: nat): State
    requires i < |s.posting|
  {
    s.(posting := s.posting[..i] + s.posting[i + 1..], tasks := s.tasks + [s.posting[i]])
  }

  // What a request leaves behind: a paused one waits alone in the queue, a playing one has a task of its own,
  // and one that is part of a storm has a task of its own, clears the queue of others and sets playing.
  lemma RequestLeaves(s: State, position: int, storm: bool)
    requires |s.queue| <= 1
    ensures var t, seek := Requested(s, position, storm), Seek(s.requests, if position < 0 then 0 else position);
            && t.requests == s.requests + 1 && t.executed == s.executed && t.agent == s.agent
            && t.playing == (s.playing || storm)
            && t.queue == (if !s.playing then [seek] else if storm then [] else s.queue)
            && t.posting == s.posting + (if storm then [Storm(seek)] else if s.playing then [Direct(seek)] else [])
            && t.tasks == s.tasks + if !s.playing && (storm || !s.drainPosted) then [Drain] else []
  {
  }

  // ---------- Steps of the task runner

  function Begun(s: State): State
    requires s.drainer == NotRunning && s.tasks != []
  {
    var a := s.(tasks := s.tasks[1..]);
    match s.tasks[0]
    case Drain => a.(drainer := Looping)
    case Direct(seek) => if a.agent then a.(executed := a.executed + [seek]) else a
    case Storm(seek) => if a.agent then a.(executed := a.executed + [seek]) else a
    case Play => if a.agent then a.(queue := [], drainPosted := false) else a
    case Disconnect => a.(queue := [], drainPosted := false, agent := false)
    case Connect => a.(agent := true)
  }

  // The locked section of DrainPausedSeekQueue.
  function Drained(s: State): State
    requires s.drainer == Looping
  {
    if s.queue == [] then s.(drainPosted := false, drainer := NotRunning)
    else s.(queue := s.queue[1..], drainer := Holding(s.queue[0]))
  }

  function Sought(s: State): State
    requires s.drainer.Holding?
  {
    var a := s.(drainer := Looping);
    if s.agent then a.(executed := s.executed + [s.drainer.seek]) else a
  }

  // ---------- No lost wake-up

  ghost predicate Inv(s: State) {
    && |s.queue| <= CAPACITY
    && (s.queue != [] ==> s.drainPosted)
    && (s.drainPosted ==> Drain in s.tasks || s.drainer != NotRunning)
    && AllSeeks(s.posting)
    && Earlier(s.tasks, s.requests) && Earlier(s.posting, s.requests)
  }

  predicate IsSeek(task: Task) { task.Direct? || task.Storm? }

  predicate AllSeeks(tasks: seq<Task>) { forall i :: 0 <= i < |tasks| ==> IsSeek(tasks[i]) }

  // Every seek task was requested before.
  predicate Earlier(tasks: seq<Task>, n: nat) {
    forall i :: 0 <= i < |tasks| && IsSeek(tasks[i]) ==> tasks[i].seek.number < n
  }

  datatype Step =
    | Request(position: int, storm: bool)
    | SetPlaying(playing: bool)
    | PostOther(task: Task)
    | Post(i: nat)
    | Begin
    | DrainNext
    | ExecuteSeek

  predicate Enabled(s: State, step: Step) {
    match step
    case PostOther(task) => task.Play? || task.Disconnect? || task.Connect?
    case Post(i) => i < |s.posting|
    case Begin => s.drainer == NotRunning && s.tasks != []
    case DrainNext => s.drainer == Looping
    case ExecuteSeek => s.drainer.Holding?
    case _ => true
  }

  function Next(s: State, step: Step): State
    requires Enabled(s, step)
  {
    match step
    case Request(position, storm) => Requested(s, position, storm)
    case SetPlaying(playing) => s.(playing := playing)
    case PostOther(task) => s.(tasks := s.tasks + [task])
    case Post(i) => Posted(s, i)
    case Begin => Begun(s)
    case DrainNext => Drained(s)
    case ExecuteSeek => Sought(s)
  }

  lemma EnqueuedKeeps(s: State, seek: Seek)
    requires Inv(s)
    ensures Inv(Enqueued(s, seek)) && Enqueued(s, seek).queue == [seek]
  {
    assert Drain in Enqueued(s, seek).tasks || s.drainPosted;
  }

  lemma RequestedKeeps(s: State, position: int, storm: bool)
    requires Inv(s)
    ensures Inv(Requested(s, position, storm))
  {
    var a := s.(requests := s.requests + 1);
    EnqueuedKeeps(if storm then a.(queue := [], drainPosted := false, playing := true) else a,
                  Seek(s.requests, Clamped(position)));
  }

  lemma PostedKeeps(s: State, i: nat)
    requires Inv(s) && i < |s.posting|
    ensures Inv(Posted(s, i))
  {
    var t := Posted(s, i);
    assert forall k :: 0 <= k < |t.posting| ==> t.posting[k] in s.posting;
  }

  lemma BegunKeeps(s: State)
    requires Inv(s) && s.drainer == NotRunning && s.tasks != []
    ensures Inv(Begun(s))
  {
    WithoutFirst(s.tasks, s.requests);
  }

  lemma WithoutFirst(tasks: seq<Task>, n: nat)
    requires tasks != [] && Earlier(tasks, n)
    ensures Earlier(tasks[1..], n)
    ensures Drain in tasks ==> tasks[0] == Drain || Drain in tasks[1..]
  {
    assert tasks == [tasks[0]] + tasks[1..];
  }

  lemma StepKeeps(s: State, step: Step)
    requires Inv(s) && Enabled(s, step)
    ensures Inv(Next(s, step))
  {
    match step
    case Request(position, storm) => RequestedKeeps(s, position, storm);
    case Post(i) => PostedKeeps(s, i);
    case Begin => BegunKeeps(s);
    case _ =>
  }

  ghost predicate IsRun(states: seq<State>, steps: seq<Step>) {
    && |states| == |steps| + 1
    && forall i :: 0 <= i < |steps| ==> Enabled(states[i], steps[i]) && states[i + 1] == Next(states[i], steps[i])
  }

  // In every run a waiting seek is alone, and a drain task is queued or running for it.
  lemma {:induction false} NoLostWakeUp(states: seq<State>, steps: seq<Step>, n: nat)
    requires IsRun(states, steps) && Inv(states[0]) && n < |states|
    ensures Inv(states[n])
  {
    if n > 0 {
      NoLostWakeUp(states, steps, n - 1);
      StepKeeps(states[n - 1], steps[n - 1]);
    }
  }

  // ---------- What the task runner will execute

  // The seeks `tasks` execute, given what waits in the queue.
  function ToExecute(queue: seq<Seek>, agent: bool, tasks: seq<Task>): seq<Seek>
    decreases |tasks|
  {
    if tasks == [] then []
    else match tasks[0]
      case Drain => (if agent then queue else []) + ToExecute([], agent, tasks[1..])
      case Direct(seek) => (if agent then [seek] else []) + ToExecute(queue, agent, tasks[1..])
      case Storm(seek) => (if agent then [seek] else []) + ToExecute(queue, agent, tasks[1..])
      case Play => ToExecute(if agent then [] else queue, agent, tasks[1..])
      case Disconnect => ToExecute([], false, tasks[1..])
      case Connect => ToExecute(queue, true, tasks[1..])
  }

  // What is executed from here on, if `later` is what will still be posted, in that order.
  function Rest(s: State, later: seq<Task>): seq<Seek> {
    var ahead := s.tasks + later;
    match s.drainer
    case NotRunning => ToExecute(s.queue, s.agent, ahead)
    case Looping => (if s.agent then s.queue else []) + ToExecute([], s.agent, ahead)
    case Holding(seek) => (if s.agent then [seek] + s.queue else []) + ToExecute([], s.agent, ahead)
  }

  function Outcome(s: State, later: seq<Task>): seq<Seek> { s.executed + Rest(s, later) }

  // A step that is no new request and posts no task that clears the queue: the task runner's own, the
  // posting of a seek decided before, or a change between playing and paused.
  predicate Settling(step: Step) {
    step.Begin? || step.DrainNext? || step.ExecuteSeek? || step.Post? || step.SetPlaying?
  }

  lemma BeginKeepsOutcome(s: State, later: seq<Task>)
    requires s.drainer == NotRunning && s.tasks != []
    ensures Outcome(Begun(s), later) == Outcome(s, later)
  {
    var a := Begun(s);
    assert (s.tasks + later)[0] == s.tasks[0] && (s.tasks + later)[1..] == a.tasks + later;
    var rest := Rest(a, later);
    match s.tasks[0]
    case Direct(seek) => Regroup(s.executed, [seek], rest); Regroup(rest, [], []);
    case Storm(seek) => Regroup(s.executed, [seek], rest); Regroup(rest, [], []);
    case _ =>
  }

  lemma DrainedKeepsOutcome(s: State, later: seq<Task>)
    requires s.drainer == Looping
    ensures Outcome(Drained(s), later) == Outcome(s, later)
  {
    if s.queue == [] {
      Regroup(Rest(Drained(s), later), [], []);
    } else {
      assert s.queue == [s.queue[0]] + s.queue[1..];
    }
  }

  lemma SoughtKeepsOutcome(s: State, later: seq<Task>)
    requires s.drainer.Holding?
    ensures Outcome(Sought(s), later) == Outcome(s, later)
  {
    var q, more := s.queue, ToExecute([], s.agent, s.tasks + later);
    Regroup([s.drainer.seek], q, more);
    Regroup(s.executed, [s.drainer.seek], q + more);
  }

  // The task a step posts, if any.
  function PostedBy(s: State, step: Step): seq<Task>
    requires Enabled(s, step)
  {
    if step.Post? then [s.posting[step.i]] else []
  }

  // Settling changes nothing about what will have been executed in the end, whatever is posted later.
  lemma SettlingKeepsOutcome(s: State, step: Step, later: seq<Task>)
    requires Enabled(s, step) && Settling(step)
    ensures Outcome(Next(s, step), later) == Outcome(s, PostedBy(s, step) + later)
  {
    Regroup(later, [], []);
    match step
    case Begin => BeginKeepsOutcome(s, later);
    case Post(i) => Regroup(s.tasks, [s.posting[i]], later);
    case DrainNext => DrainedKeepsOutcome(s, later);
    case ExecuteSeek => SoughtKeepsOutcome(s, later);
    case SetPlaying(_) =>
  }

  // Without an agent, and none on its way, no seek is executed.
  lemma {:induction false} NoAgentNoSeek(queue: seq<Seek>, tasks: seq<Task>)
    requires Connect !in tasks
    ensures ToExecute(queue, false, tasks) == []
    decreases |tasks|
  {
    if tasks != [] {
      NoAgentNoSeek(queue, tasks[1..]);
      NoAgentNoSeek([], tasks[1..]);
    }
  }

  // What the task at the front does, with an agent: seeks are executed, in passing; a drain starts; playing and
  // disconnecting discard a waiting seek.
  lemma TasksDo(s: State)
    requires s.drainer == NotRunning && s.tasks != [] && s.agent
    ensures var t, task := Begun(s), s.tasks[0];
            && t.tasks == s.tasks[1..] && t.posting == s.posting && t.playing == s.playing
            && t.executed == s.executed + (if IsSeek(task) then [task.seek] else [])
            && t.drainer == (if task.Drain? then Looping else NotRunning)
            && t.queue == (if task.Play? || task.Disconnect? then [] else s.queue)
            && t.agent == !task.Disconnect?
  {
  }

  predicate Quiet(s: State) {
    s.tasks == [] && s.posting == [] && s.drainer == NotRunning
  }

  lemma QuietIsDone(s: State)
    requires Inv(s) && Quiet(s)
    ensures Outcome(s, []) == s.executed && s.queue == []
  {
  }

  // ---------- Whether the last seek executed is the latest requested

  predicate HasSeek(tasks: seq<Task>) { exists i :: 0 <= i < |tasks| && IsSeek(tasks[i]) }

  // A seek task stands behind the first drain, running or queued.
  predicate SeekBehindDrain(s: State) {
    if s.drainer != NotRunning then HasSeek(s.tasks) else BehindFirstDrain(s.tasks)
  }

  predicate BehindFirstDrain(tasks: seq<Task>) {
    tasks != [] && if tasks[0].Drain? then HasSeek(tasks[1..]) else BehindFirstDrain(tasks[1..])
  }

  // No task clears the queue or replaces the agent.
  predicate CalmTasks(tasks: seq<Task>) {
    forall i :: 0 <= i < |tasks| ==> IsSeek(tasks[i]) || tasks[i].Drain?
  }

  predicate EndsWith(seeks: seq<Seek>, seek: Seek) { seeks != [] && seeks[|seeks| - 1] == seek }

  lemma {:induction false} LastOfSeeks(tasks: seq<Task>, n: nat)
    requires CalmTasks(tasks) && Earlier(tasks, n)
    ensures HasSeek(tasks) <==> ToExecute([], true, tasks) != []
    ensures forall i :: 0 <= i < |ToExecute([], true, tasks)| ==> ToExecute([], true, tasks)[i].number < n
  {
    if tasks != [] {
      var rest := tasks[1..];
      LastOfSeeks(rest, n);
      assert forall i :: 0 <= i < |rest| ==> rest[i] == tasks[i + 1];
      Regroup(ToExecute([], true, rest), [], []);
    }
  }

  // A waiting seek is executed last exactly when no seek task is behind the first drain.
  lemma {:induction false} WaitingIsLast(seek: Seek, tasks: seq<Task>)
    requires CalmTasks(tasks) && Earlier(tasks, seek.number) && Drain in tasks
    ensures EndsWith(ToExecute([seek], true, tasks), seek) <==> !BehindFirstDrain(tasks)
  {
    var rest := tasks[1..];
    assert forall i :: 0 <= i < |rest| ==> rest[i] == tasks[i + 1];
    if tasks[0].Drain? {
      LastOfSeeks(rest, seek.number);
    } else {
      WaitingIsLast(seek, rest);
      WaitingIsExecuted(seek, rest);
    }
  }

  lemma {:induction false} WaitingIsExecuted(seek: Seek, tasks: seq<Task>)
    requires CalmTasks(tasks) && Drain in tasks
    ensures ToExecute([seek], true, tasks) != []
  {
    if !tasks[0].Drain? {
      WaitingIsExecuted(seek, tasks[1..]);
    }
  }

  // A seek task at the end is executed last.
  lemma {:induction false} PostedIsLast(queue: seq<Seek>, tasks: seq<Task>, task: Task)
    requires CalmTasks(tasks) && IsSeek(task)
    ensures EndsWith(ToExecute(queue, true, tasks + [task]), task.seek)
    decreases |tasks|
  {
    var all := tasks + [task];
    if tasks != [] {
      assert all[0] == tasks[0] && all[1..] == tasks[1..] + [task];
      PostedIsLast(if tasks[0].Drain? then [] else queue, tasks[1..], task);
    } else {
      assert all[1..] == [];
    }
  }

  // A drain at the end puts no seek behind a drain.
  lemma {:induction false} DrainAtEnd(tasks: seq<Task>)
    ensures BehindFirstDrain(tasks + [Drain]) <==> BehindFirstDrain(tasks)
    ensures HasSeek(tasks + [Drain]) <==> HasSeek(tasks)
  {
    var all := tasks + [Drain];
    if HasSeek(tasks) {
      var i :| 0 <= i < |tasks| && IsSeek(tasks[i]);
      assert IsSeek(all[i]);
    }
    if tasks != [] {
      assert all[1..] == tasks[1..] + [Drain];
      DrainAtEnd(tasks[1..]);
    } else {
      assert all[1..] == [];
    }
  }

  // The seek that a request with nothing cleared leaves waiting, with no seek still to be posted.
  lemma WaitingDecided(s: State, seek: Seek)
    requires Inv(s) && s.agent && CalmTasks(s.tasks) && s.queue == [seek]
    requires Earlier(s.tasks, seek.number)
    ensures EndsWith(Outcome(s, []), seek) <==> !SeekBehindDrain(s)
  {
    assert s.tasks + [] == s.tasks;
    LastOfSeeks(s.tasks, seek.number);
    if s.drainer == NotRunning {
      WaitingIsLast(seek, s.tasks);
      WaitingIsExecuted(seek, s.tasks);
    }
  }

  lemma EnqueuedDecided(s: State, seek: Seek)
    requires Inv(s) && s.agent && CalmTasks(s.tasks) && seek.number >= s.requests
    ensures EndsWith(Outcome(Enqueued(s, seek), []), seek) <==> !SeekBehindDrain(s)
  {
    var t := Enqueued(s, seek);
    DrainAtEnd(s.tasks);
    assert t.queue == [seek];
    assert Drain in t.tasks || t.drainer != NotRunning;
    WaitingDecided(t, seek);
  }

  // Of the seeks still to be posted the last one posted is the last one executed.
  lemma LastPostedIsLast(s: State, later: seq<Task>)
    requires s.agent && CalmTasks(s.tasks) && AllSeeks(later) && later != []
    ensures EndsWith(Outcome(s, later), later[|later| - 1].seek)
  {
    var n := |later| - 1;
    var before := s.tasks + later[..n];
    assert s.tasks + later == before + [later[n]];
    assert CalmTasks(before);
    PostedIsLast(s.queue, before, later[n]);
    PostedIsLast([], before, later[n]);
    AfterAll(s.executed, s.queue, ToExecute([], true, s.tasks + later), later[n].seek);
    AfterAll(s.executed, [], ToExecute(s.queue, true, s.tasks + later), later[n].seek);
    if s.drainer.Holding? {
      AfterAll(s.executed, [s.drainer.seek] + s.queue, ToExecute([], true, s.tasks + later), later[n].seek);
    }
  }

  lemma AfterAll(a: seq<Seek>, b: seq<Seek>, c: seq<Seek>, seek: Seek)
    requires EndsWith(c, seek)
    ensures EndsWith(a + (b + c), seek) && EndsWith(a + c, seek)
  {
  }

  ghost predicate SameTasks(a: seq<Task>, b: seq<Task>) { forall task :: task in a <==> task in b }

  lemma NoneOrNone(a: seq<Task>, b: seq<Task>)
    requires SameTasks(a, b)
    ensures a == [] <==> b == []
  {
    if a != [] { assert a[0] in a; }
    if b != [] { assert b[0] in b; }
  }

  // Only what was decided comes later, so all of it are seeks of numbers known.
  lemma LaterSeeks(posting: seq<Task>, later: seq<Task>)
    requires SameTasks(later, posting) && AllSeeks(posting)
    ensures AllSeeks(later) && (later != [] ==> LastTask(later) in posting)
  {
    forall i | 0 <= i < |later| ensures later[i] in posting { assert later[i] in later; }
  }

  // The task a request that does not wait has of its own.
  function OwnTask(s: State, position: int, storm: bool): Task {
    var seek := Seek(s.requests, Clamped(position));
    if storm then Storm(seek) else Direct(seek)
  }

  function LastTask(tasks: seq<Task>): Task
    requires tasks != []
  {
    tasks[|tasks| - 1]
  }

  lemma RequestedCalm(s: State, position: int, storm: bool)
    requires CalmTasks(s.tasks)
    ensures var t := Requested(s, position, storm);
            && t.agent == s.agent && CalmTasks(t.tasks)
            && t.posting == s.posting + if s.playing || storm then [OwnTask(s, position, storm)] else []
  {
  }

  // With an agent, and nothing on its way that clears the queue, whatever other threads have decided and
  // not posted yet: a request with a task of its own is the last seek executed in the end if and only if
  // its task is the last one posted; a request that waits in the queue, if and only if no seek task stands
  // behind the drain that will take it and none is still to be posted.
  lemma RequestDecided(s: State, position: int, storm: bool, later: seq<Task>)
    requires Inv(s) && s.agent && CalmTasks(s.tasks) && SameTasks(later, Requested(s, position, storm).posting)
    ensures EndsWith(Outcome(Requested(s, position, storm), later), Seek(s.requests, Clamped(position)))
            <==> if s.playing || storm then later != [] && LastTask(later) == OwnTask(s, position, storm)
                 else !SeekBehindDrain(s) && s.posting == []
  {
    var seek := Seek(s.requests, Clamped(position));
    var t := Requested(s, position, storm);
    RequestedKeeps(s, position, storm);
    RequestedCalm(s, position, storm);
    NoneOrNone(later, t.posting);
    LaterSeeks(t.posting, later);
    if later != [] {
      LastPostedIsLast(t, later);
      OnlyOwnIsNew(s, position, storm, LastTask(later));
    } else {
      assert t == Enqueued(s, seek).(requests := s.requests + 1);
      EnqueuedDecided(s, seek);
    }
  }

  // No other pending task is of the request's seek.
  lemma OnlyOwnIsNew(s: State, position: int, storm: bool, task: Task)
    requires Inv(s) && CalmTasks(s.tasks) && task in Requested(s, position, storm).posting
    ensures IsSeek(task)
    ensures task.seek == Seek(s.requests, Clamped(position))
            <==> (s.playing || storm) && task == OwnTask(s, position, storm)
  {
    RequestedCalm(s, position, storm);
  }

  // ---------- Over runs

  // The tasks posted from step `k` of a run on, in order.
  ghost function Posts(states: seq<State>, steps: seq<Step>, k: nat): seq<Task>
    requires IsRun(states, steps) && k <= |steps|
    decreases |steps| - k
  {
    if k == |steps| then [] else PostedBy(states[k], steps[k]) + Posts(states, steps, k + 1)
  }

  ghost predicate SettlingRun(states: seq<State>, steps: seq<Step>) {
    && IsRun(states, steps) && Inv(states[0]) && Quiet(states[|steps|])
    && forall i :: 0 <= i < |steps| ==> Settling(steps[i])
  }

  lemma PostingWithout(s: State, i: nat)
    requires i < |s.posting|
    ensures forall task :: task in s.posting <==> task == s.posting[i] || task in Posted(s, i).posting
  {
    assert s.posting == s.posting[..i] + [s.posting[i]] + s.posting[i + 1..];
  }

  lemma PostedWithLater(s: State, step: Step, later: seq<Task>)
    requires Enabled(s, step) && Settling(step) && SameTasks(later, Next(s, step).posting)
    ensures SameTasks(PostedBy(s, step) + later, s.posting)
  {
    if step.Post? {
      PostingWithout(s, step.i);
    } else {
      Regroup(later, [], []);
    }
  }

  // In a run that ends quiet exactly what was decided is posted, and what was to be executed is.
  lemma {:induction false} SettlesAsForeseen(states: seq<State>, steps: seq<Step>, k: nat)
    requires SettlingRun(states, steps) && k <= |steps|
    ensures SameTasks(Posts(states, steps, k), states[k].posting)
    ensures Outcome(states[k], Posts(states, steps, k)) == states[|steps|].executed
    decreases |steps| - k
  {
    if k == |steps| {
      NoLostWakeUp(states, steps, k);
      QuietIsDone(states[k]);
    } else {
      SettlesAsForeseen(states, steps, k + 1);
      var later := Posts(states, steps, k + 1);
      assert Enabled(states[k], steps[k]) && states[k + 1] == Next(states[k], steps[k]);
      SettlingKeepsOutcome(states[k], steps[k], later);
      PostedWithLater(states[k], steps[k], later);
      assert Posts(states, steps, k) == PostedBy(states[k], steps[k]) + later;
    }
  }

  // Over every run from a request until everything is quiet, with no request after it.
  lemma LatestSeekDecided(s: State, position: int, storm: bool, states: seq<State>, steps: seq<Step>)
    requires Inv(s) && s.agent && CalmTasks(s.tasks)
    requires SettlingRun(states, steps) && states[0] == Requested(s, position, storm)
    ensures EndsWith(states[|steps|].executed, Seek(s.requests, Clamped(position)))
            <==> if s.playing || storm
                 then Posts(states, steps, 0) != [] && LastTask(Posts(states, steps, 0)) == OwnTask(s, position, storm)
                 else !SeekBehindDrain(s) && s.posting == []
  {
    SettlesAsForeseen(states, steps, 0);
    RequestDecided(s, position, storm, Posts(states, steps, 0));
  }

  // Where no other thread is between deciding and posting, the task queue at the time of the request says
  // it all.
  lemma LatestSeekOfOneThread(s: State, position: int, storm: bool, states: seq<State>, steps: seq<Step>)
    requires Inv(s) && s.agent && CalmTasks(s.tasks) && s.posting == []
    requires SettlingRun(states, steps) && states[0] == Requested(s, position, storm)
    ensures EndsWith(states[|steps|].executed, Seek(s.requests, Clamped(position)))
            <==> s.playing || storm || !SeekBehindDrain(s)
  {
    LatestSeekDecided(s, position, storm, states, steps);
    SettlesAsForeseen(states, steps, 0);
    RequestedCalm(s, position, storm);
    var posts, own := Posts(states, steps, 0), OwnTask(s, position, storm);
    if s.playing || storm {
      assert own in states[0].posting;
      assert LastTask(posts) in posts;
    }
  }

  // ---------- The exceptions

  // Paused, seek; playing, seek again; paused, seek a third time: the third waits in the queue for the
  // drain posted with the first, and the second is executed after it.
  lemma LatestSeekOvertaken(a: int, b: int, c: int)
    ensures var s := INITIAL.(agent := true);
            var s1 := Requested(s, a, false);
            var s2 := Posted(Requested(s1.(playing := true), b, false), 0);
            var s3 := Requested(s2.(playing := false), c, false);
            Inv(s3) && s3.posting == [] && Outcome(s3, []) == [Seek(2, Clamped(c)), Seek(1, Clamped(b))]
  {
    var s := INITIAL.(agent := true);
    var s1 := Requested(s, a, false);
    var s2 := Posted(Requested(s1.(playing := true), b, false), 0);
    var s3 := Requested(s2.(playing := false), c, false);
    StepKeeps(s, Request(a, false));
    StepKeeps(s1.(playing := true), Request(b, false));
    StepKeeps(Requested(s1.(playing := true), b, false), Post(0));
    StepKeeps(s2.(playing := false), Request(c, false));
    var second := Direct(Seek(1, Clamped(b)));
    assert s3.tasks == [Drain, second] && s3.queue == [Seek(2, Clamped(c))];
    assert s3.tasks + [] == [Drain, second] && [Drain, second][1..] == [second] && [second][1..] == [];
    assert ToExecute([], true, [second]) == [second.seek] + ToExecute([], true, []);
  }

  // Playing, two threads decide a seek each and post in the other order: the earlier request is last.
  lemma LatestSeekOvertakenInPosting(a: int, b: int)
    ensures var s := INITIAL.(agent := true, playing := true);
            var s1 := Requested(Requested(s, a, false), b, false);
            var s2 := Posted(Posted(s1, 1), 0);
            Inv(s2) && s2.posting == [] && Outcome(s2, []) == [Seek(1, Clamped(b)), Seek(0, Clamped(a))]
  {
    var s := INITIAL.(agent := true, playing := true);
    var first, second := Direct(Seek(0, Clamped(a))), Direct(Seek(1, Clamped(b)));
    var s1 := Requested(Requested(s, a, false), b, false);
    StepKeeps(s, Request(a, false));
    StepKeeps(Requested(s, a, false), Request(b, false));
    StepKeeps(s1, Post(1));
    StepKeeps(Posted(s1, 1), Post(0));
    assert Posted(Posted(s1, 1), 0).tasks + [] == [second, first] && [second, first][1..] == [first]
        && [first][1..] == [];
    assert ToExecute([], true, [first]) == [first.seek] + ToExecute([], true, []);
  }

  // Playing, a seek is decided and not posted; paused, another one waits; the first is posted behind it.
  lemma WaitingSeekOvertakenInPosting(a: int, b: int)
    ensures var s := INITIAL.(agent := true, playing := true);
            var s1 := Requested(s, a, false).(playing := false);
            var s2 := Posted(Requested(s1, b, false), 0);
            && !SeekBehindDrain(s1) && Inv(s2) && s2.posting == []
            && Outcome(s2, []) == [Seek(1, Clamped(b)), Seek(0, Clamped(a))]
  {
    var s := INITIAL.(agent := true, playing := true);
    var first := Direct(Seek(0, Clamped(a)));
    var s1 := Requested(s, a, false).(playing := false);
    StepKeeps(s, Request(a, false));
    StepKeeps(s1, Request(b, false));
    StepKeeps(Requested(s1, b, false), Post(0));
    assert Posted(Requested(s1, b, false), 0).tasks + [] == [Drain, first] && [Drain, first][1..] == [first]
        && [first][1..] == [];
    assert ToExecute([], true, [first]) == [first.seek] + ToExecute([], true, []);
  }
}
