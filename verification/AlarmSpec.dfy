/** Alarms, their functors and the task runner of util/alarm.cc as one state, and what every step of
    the alarm, its client and the runner does to it.

    Alarms and functors refer to each other by raw pointers, and either may be destroyed first, so
    the objects live in maps keyed by address: a pointer is good only while its key is there.

    The runner holds each posted functor with its due time and may fire it late, never early. The
    clock stands still during one call. A client task may call any alarm again, or destroy it: `Fire`
    ends where the task starts, and `TaskReturned` does what the functor does after it, so any steps
    may come in between. The runner does not run a task inside another. */
module AlarmSpecs {
  import opened Basics
  import opened AlarmLogs

  datatype AlarmState = AlarmState(
    scheduledTask: Option<nat>, alarmTime: int, queuedFire: Option<nat>, nextFireTime: int)

  datatype World = World(
    now: int,
    alarms: map<nat, AlarmState>,
    functors: map<nat, Option<nat>>,   // each functor's alarm_ pointer
    queue: map<nat, int>,              // functors posted to the runner, with their due times
    running: Option<nat>,              // the functor whose task is on the stack
    nextAddress: nat,
    nextTask: nat,
    log: seq<Event>,
    abandoned: set<nat>)               // alarms whose posted functor the runner threw away

  const NEW_ALARM := AlarmState(None, 0, None, 0)

  // ---------- The invariant

  // A functor that points at an alarm is the one that alarm points back at. Only the functor now
  // running is exempt: its alarm may be gone.
  ghost predicate FunctorsPoint(w: World) {
    forall f :: f in w.functors && w.functors[f].Some? && w.running != Some(f) ==>
      w.functors[f].value in w.alarms && w.alarms[w.functors[f].value].queuedFire == Some(f)
  }

  // A posted firing is in the queue, points at its alarm and is due when the alarm thinks it is.
  ghost predicate PostedIs(w: World, a: nat, f: nat) {
    && a in w.alarms && f in w.functors && w.functors[f] == Some(a) && w.running != Some(f)
    && f in w.queue && w.queue[f] == w.alarms[a].nextFireTime
  }

  ghost predicate AlarmsPoint(w: World) {
    forall a :: a in w.alarms && w.alarms[a].queuedFire.Some? ==> PostedIs(w, a, w.alarms[a].queuedFire.value)
  }

  // An alarm with a task has a posted firing, due no later than the task.
  ghost predicate ArmedExcept(w: World, exempt: set<nat>) {
    forall a :: a in w.alarms && a !in exempt && w.alarms[a].scheduledTask.Some? ==>
      w.alarms[a].queuedFire.Some? && w.alarms[a].nextFireTime <= w.alarms[a].alarmTime
  }

  // The alarm holds exactly the request that stands in the log, for the time asked for, or for when it was
  // made if that is later.
  ghost predicate Agrees(w: World, a: nat)
    requires a in w.alarms
  {
    var r := Standing(w.log, a);
    match w.alarms[a].scheduledTask
    case None => r.None?
    case Some(t) => r.Some? && r.value.task == t && w.alarms[a].alarmTime == Max(r.value.time, r.value.made)
  }

  ghost predicate LogAgrees(w: World) {
    && Lawful(w.log)
    && (forall a :: a in w.alarms ==> Agrees(w, a))
    && (forall i :: 0 <= i < |w.log| && w.log[i].Scheduled? ==> w.log[i].task < w.nextTask)
    && (forall i :: 0 <= i < |w.log| ==> w.log[i].alarm < w.nextAddress)
  }

  ghost predicate Housed(w: World) {
    && w.queue.Keys <= w.functors.Keys
    && (w.running.Some? ==> w.running.value in w.functors && w.running.value !in w.queue)
    && (forall f :: f in w.functors ==> f < w.nextAddress && (f in w.queue || w.running == Some(f)))
    && (forall a :: a in w.alarms ==> a < w.nextAddress)
  }

  // An alarm whose firing the runner threw away has none until it is scheduled again.
  ghost predicate AbandonedHaveNone(w: World) {
    forall a :: a in w.alarms && a in w.abandoned ==> w.alarms[a].queuedFire.None?
  }

  ghost predicate InvExcept(w: World, exempt: set<nat>) {
    && FunctorsPoint(w) && AlarmsPoint(w) && AbandonedHaveNone(w) && ArmedExcept(w, w.abandoned + exempt)
    && LogAgrees(w) && Housed(w)
  }

  ghost predicate Inv(w: World) {
    InvExcept(w, {})
  }

  // Functor and alarm point at each other, and the functor is posted, due no later than the alarm's time.
  predicate Live(w: World, a: nat, f: nat) {
    && a in w.alarms && w.alarms[a].queuedFire == Some(f)
    && f in w.functors && w.functors[f] == Some(a)
    && f in w.queue && w.queue[f] <= w.alarms[a].alarmTime
  }

  // An alarm with a task has a live functor, unless the runner threw it away; and no other posted functor
  // points at it.
  lemma OneLiveFunctor(w: World, a: nat)
    requires Inv(w) && a in w.alarms && w.alarms[a].scheduledTask.Some?
    ensures (exists f :: Live(w, a, f)) <==> a !in w.abandoned
    ensures forall f, g :: Live(w, a, f) && g in w.queue && w.functors[g] == Some(a) ==> f == g
  {
    if a !in w.abandoned {
      assert Live(w, a, w.alarms[a].queuedFire.value);
    }
  }

  // ---------- Parts of steps

  function Logged(w: World, e: Event): World {
    w.(log := w.log + [e])
  }

  // InvokeLater: a functor is built, moved into the queue, and what it was moved from is destroyed.
  function Posted(w: World, a: nat, fireTime: int): World
    requires a in w.alarms
  {
    var f := w.nextAddress + 1;
    w.(alarms := w.alarms[a := w.alarms[a].(queuedFire := Some(f), nextFireTime := fireTime)],
       functors := w.functors[f := Some(a)], queue := w.queue[f := fireTime], nextAddress := f + 1)
  }

  // The posted firing of `a`, if any, is cancelled: it stays in the queue, pointing nowhere.
  function Unposted(w: World, a: nat): World
    requires a in w.alarms
  {
    match w.alarms[a].queuedFire
    case None => w
    case Some(f) => w.(alarms := w.alarms[a := w.alarms[a].(queuedFire := None)], functors := w.functors[f := None])
  }

  // ---------- Steps

  function Create(w: World): World {
    w.(alarms := w.alarms[w.nextAddress := NEW_ALARM], nextAddress := w.nextAddress + 1)
  }

  // The request is taken down, before anything is posted for it.
  function Requested(w: World, a: nat, desired: int): World
    requires a in w.alarms
  {
    var s := w.alarms[a].(scheduledTask := Some(w.nextTask), alarmTime := Max(w.now, desired));
    Logged(w.(alarms := w.alarms[a := s], nextTask := w.nextTask + 1), Scheduled(a, w.nextTask, desired, w.now))
  }

  function Schedule(w: World, a: nat, desired: int): World
    requires a in w.alarms
  {
    var v := Requested(w, a, desired).(abandoned := w.abandoned - {a});
    var s := v.alarms[a];
    if s.queuedFire.Some? && s.nextFireTime <= s.alarmTime then v
    else Posted(Unposted(v, a), a, s.alarmTime)
  }

  function Cancel(w: World, a: nat): World
    requires a in w.alarms
  {
    Logged(w.(alarms := w.alarms[a := w.alarms[a].(scheduledTask := None)]), Cancelled(a))
  }

  function Destroy(w: World, a: nat): World
    requires a in w.alarms
  {
    var v := Unposted(w, a);
    Logged(v.(alarms := v.alarms - {a}), Destroyed(a))
  }

  // The functor `f` leaves the queue for the stack, and its alarm no longer waits for it.
  function Taken(w: World, f: nat): World
    requires f in w.functors
  {
    var v := w.(queue := w.queue - {f}, running := Some(f));
    if w.functors[f].Some? && w.functors[f].value in w.alarms then
      var a := w.functors[f].value;
      v.(alarms := w.alarms[a := w.alarms[a].(queuedFire := None)])
    else v
  }

  // The functor on the stack forgets its alarm and is destroyed.
  function Returned(w: World): World
    requires w.running.Some?
  {
    w.(functors := w.functors - {w.running.value}, running := None)
  }

  // TryInvoke: run the client's task now, try again later, or do nothing.
  function Tried(w: World, a: nat): World
    requires a in w.alarms
  {
    var s := w.alarms[a];
    if s.scheduledTask.None? then w
    else if w.now < s.alarmTime then Posted(w, a, s.alarmTime)
    else Logged(w.(alarms := w.alarms[a := s.(scheduledTask := None)]), Ran(a, s.scheduledTask.value, w.now))
  }

  // Whether firing `f` starts a client task.
  predicate Starts(w: World, f: nat) {
    && f in w.functors && w.functors[f].Some? && w.functors[f].value in w.alarms
    && var s := w.alarms[w.functors[f].value];
       s.scheduledTask.Some? && s.alarmTime <= w.now
  }

  function Fire(w: World, f: nat): World
    requires f in w.functors
  {
    var v := Taken(w, f);
    var u := if w.functors[f].Some? && w.functors[f].value in v.alarms then Tried(v, w.functors[f].value) else v;
    if Starts(w, f) || u.running.None? then u else Returned(u)
  }

  // The runner moves a posted functor to another address.
  function Move(w: World, f: nat): World
    requires f in w.queue && f in w.functors
  {
    var g := w.nextAddress;
    var v := w.(functors := (w.functors - {f})[g := w.functors[f]], queue := (w.queue - {f})[g := w.queue[f]],
                nextAddress := g + 1);
    if w.functors[f].Some? && w.functors[f].value in w.alarms then
      var a := w.functors[f].value;
      v.(alarms := w.alarms[a := w.alarms[a].(queuedFire := Some(g))])
    else v
  }

  // The runner throws a posted functor away without calling it.
  function Drop(w: World, f: nat): World
    requires f in w.queue && f in w.functors
  {
    var v := w.(functors := w.functors - {f}, queue := w.queue - {f});
    if w.functors[f].Some? && w.functors[f].value in w.alarms then
      var a := w.functors[f].value;
      v.(alarms := w.alarms[a := w.alarms[a].(queuedFire := None)], abandoned := w.abandoned + {a})
    else v
  }

  // What a functor's pointer leads to, with no firing, and with the firing `f`.
  function WithoutFiring(alarms: map<nat, AlarmState>, pointer: Option<nat>): map<nat, AlarmState> {
    if pointer.Some? && pointer.value in alarms then alarms[pointer.value := alarms[pointer.value].(queuedFire := None)]
    else alarms
  }

  function WithFiring(alarms: map<nat, AlarmState>, pointer: Option<nat>, f: nat): map<nat, AlarmState> {
    if pointer.Some? && pointer.value in alarms then
      alarms[pointer.value := alarms[pointer.value].(queuedFire := Some(f))]
    else alarms
  }

  // The functor lets go of its alarm, which has no firing then.
  function LetGo(w: World, f: nat): World
    requires f in w.functors
  {
    w.(functors := w.functors[f := None], alarms := WithoutFiring(w.alarms, w.functors[f]),
       abandoned := w.abandoned + if w.functors[f].Some? then {w.functors[f].value} else {})
  }

  // An empty functor takes over from another, which is left empty, or is the same.
  function TakenOver(w: World, dst: nat, src: nat): World
    requires dst in w.functors && src in w.functors && src in w.queue
  {
    w.(functors := w.functors[dst := w.functors[src]][src := None], queue := w.queue[dst := w.queue[src]],
       alarms := WithFiring(w.alarms, w.functors[src], dst))
  }

  // The runner assigns one posted functor to another, which may be itself: what the target was to fire is
  // lost.
  function Assign(w: World, dst: nat, src: nat): World
    requires dst in w.queue && dst in w.functors && src in w.queue && src in w.functors
  {
    TakenOver(LetGo(w, dst), dst, src)
  }

  // ---------- Every step keeps the invariant

  // The log grows by an event about alarm `a`, and only `a` changes.
  lemma LogStep(w: World, v: World, e: Event)
    requires LogAgrees(w) && Allowed(w.log, e) && v.log == w.log + [e]
    requires v.alarms.Keys <= w.alarms.Keys && forall b :: b in v.alarms && b != e.alarm ==>
               v.alarms[b].scheduledTask == w.alarms[b].scheduledTask && v.alarms[b].alarmTime == w.alarms[b].alarmTime
    requires e.alarm in v.alarms ==>
               match v.alarms[e.alarm].scheduledTask
               case None => !e.Scheduled?
               case Some(t) =>
                 e.Scheduled? && e.task == t && v.alarms[e.alarm].alarmTime == Max(e.time, e.made)
    requires w.nextTask <= v.nextTask && w.nextAddress <= v.nextAddress
    requires e.alarm < v.nextAddress && (e.Scheduled? ==> e.task < v.nextTask)
    ensures LogAgrees(v)
  {
    LawfulExtend(w.log, e);
    forall a | a in v.alarms ensures Agrees(v, a) {
      StandingExtend(w.log, e, a);
      if a != e.alarm { assert Agrees(w, a); }
    }
  }

  lemma CreateKeeps(w: World)
    requires Inv(w)
    ensures Inv(Create(w))
  {
    NothingStandsUnmentioned(w.log, w.nextAddress);
  }

  lemma RequestedKeeps(w: World, a: nat, desired: int)
    requires Inv(w) && a in w.alarms
    ensures InvExcept(Requested(w, a, desired), {a})
  {
    LogStep(w, Requested(w, a, desired), Scheduled(a, w.nextTask, desired, w.now));
  }

  lemma UnpostedKeeps(w: World, a: nat)
    requires InvExcept(w, {a}) && a in w.alarms
    ensures InvExcept(Unposted(w, a), {a})
  {}

  lemma PostedKeeps(w: World, a: nat)
    requires InvExcept(w, {a}) && a in w.alarms && w.alarms[a].queuedFire.None? && a !in w.abandoned
    ensures InvExcept(Posted(w, a, w.alarms[a].alarmTime), {})
  {}

  lemma ForgetAbandoned(w: World, a: nat)
    requires InvExcept(w, {a})
    ensures InvExcept(w.(abandoned := w.abandoned - {a}), {a})
  {}

  lemma ScheduleKeeps(w: World, a: nat, desired: int)
    requires Inv(w) && a in w.alarms
    ensures Inv(Schedule(w, a, desired))
  {
    RequestedKeeps(w, a, desired);
    ForgetAbandoned(Requested(w, a, desired), a);
    var v := Requested(w, a, desired).(abandoned := w.abandoned - {a});
    var s := v.alarms[a];
    if s.queuedFire.Some? && s.nextFireTime <= s.alarmTime {
      assert ArmedExcept(v, v.abandoned);
    } else {
      UnpostedKeeps(v, a);
      PostedKeeps(Unposted(v, a), a);
    }
  }

  lemma CancelKeeps(w: World, a: nat)
    requires Inv(w) && a in w.alarms
    ensures Inv(Cancel(w, a))
  {
    LogStep(w, Cancel(w, a), Cancelled(a));
  }

  lemma DestroyKeeps(w: World, a: nat)
    requires Inv(w) && a in w.alarms
    ensures Inv(Destroy(w, a))
  {
    UnpostedKeeps(w, a);
    LogStep(w, Destroy(w, a), Destroyed(a));
  }

  lemma TakenKeeps(w: World, f: nat)
    requires Inv(w) && w.running.None? && f in w.queue
    ensures InvExcept(Taken(w, f), if w.functors[f].Some? then {w.functors[f].value} else {})
  {}

  lemma TriedKeeps(w: World, a: nat)
    requires InvExcept(w, {a}) && a in w.alarms && w.alarms[a].queuedFire.None? && a !in w.abandoned
    ensures Inv(Tried(w, a))
  {
    var s := w.alarms[a];
    if s.scheduledTask.Some? {
      if w.now < s.alarmTime { PostedKeeps(w, a); } else { RanKeeps(w, a); }
    }
  }

  lemma RanKeeps(w: World, a: nat)
    requires InvExcept(w, {a}) && a in w.alarms && w.alarms[a].scheduledTask.Some? && w.alarms[a].alarmTime <= w.now
    ensures Inv(Tried(w, a))
  {
    assert Agrees(w, a);
    LogStep(w, Tried(w, a), Ran(a, w.alarms[a].scheduledTask.value, w.now));
  }

  lemma ReturnedKeeps(w: World)
    requires Inv(w) && w.running.Some?
    ensures Inv(Returned(w))
  {}

  lemma FireKeeps(w: World, f: nat)
    requires Inv(w) && w.running.None? && f in w.queue
    ensures Inv(Fire(w, f))
  {
    var v := Taken(w, f);
    TakenKeeps(w, f);
    var u := v;
    if w.functors[f].Some? {
      var a := w.functors[f].value;
      TriedKeeps(v, a);
      u := Tried(v, a);
    }
    ReturnedKeeps(u);
  }

  // When a standing request is due.
  function DueAt(r: Request): int { Max(r.time, r.made) }

  // From the time a standing request is due the runner may fire its live functor, and firing it runs the
  // standing task; fired before, the functor is replaced by one due at that very time.
  lemma FiresOnTime(w: World, a: nat, f: nat)
    requires Inv(w) && w.running.None? && Live(w, a, f) && Standing(w.log, a).Some?
    ensures var r := Standing(w.log, a).value;
            && (DueAt(r) <= w.now ==>
                  && Enabled(w, DoFire(f)) && Fire(w, f).log == w.log + [Ran(a, r.task, w.now)]
                  && Fire(w, f).running == Some(f))
            && (w.now < DueAt(r) ==>
                  && Fire(w, f).log == w.log
                  && exists g :: Live(Fire(w, f), a, g) && Fire(w, f).queue[g] == DueAt(r))
  {
    assert Agrees(w, a);
    var r := Standing(w.log, a).value;
    if w.now < DueAt(r) {
      var v := Fire(w, f);
      var g := w.nextAddress + 1;
      assert v.alarms[a].queuedFire == Some(g);
      assert Live(v, a, g);
    }
  }

  // With no request standing, nothing runs.
  lemma FiresNothing(w: World, f: nat)
    requires Inv(w) && w.running.None? && f in w.queue
    requires w.functors[f].Some? ==> Standing(w.log, w.functors[f].value).None?
    ensures Fire(w, f).log == w.log && Fire(w, f).running.None?
  {
    if w.functors[f].Some? { assert Agrees(w, w.functors[f].value); }
  }

  // A request made now, earlier or later than one before, is the one that stands, and a live functor is due
  // in time for it.
  lemma RearmingTakesEffect(w: World, a: nat, desired: int)
    requires Inv(w) && a in w.alarms
    ensures var v := Schedule(w, a, desired);
            && Standing(v.log, a) == Some(Request(w.nextTask, desired, w.now))
            && v.alarms[a].alarmTime == Max(desired, w.now)
            && exists f :: Live(v, a, f)
  {
    ScheduleKeeps(w, a, desired);
    var v := Schedule(w, a, desired);
    StandingExtend(w.log, Scheduled(a, w.nextTask, desired, w.now), a);
    OneLiveFunctor(v, a);
  }

  lemma MoveKeeps(w: World, f: nat)
    requires Inv(w) && f in w.queue
    ensures Inv(Move(w, f))
  {}

  lemma DropKeeps(w: World, f: nat)
    requires Inv(w) && f in w.queue
    ensures Inv(Drop(w, f))
  {}

  lemma LetGoKeeps(w: World, f: nat)
    requires Inv(w) && f in w.queue
    ensures Inv(LetGo(w, f))
  {}

  lemma TakenOverKeeps(w: World, dst: nat, src: nat)
    requires Inv(w) && dst in w.queue && src in w.queue && w.functors[dst] == None
    ensures Inv(TakenOver(w, dst, src))
  {}

  lemma AssignKeeps(w: World, dst: nat, src: nat)
    requires Inv(w) && dst in w.queue && src in w.queue
    ensures Inv(Assign(w, dst, src))
  {
    LetGoKeeps(w, dst);
    TakenOverKeeps(LetGo(w, dst), dst, src);
  }

  // ---------- Every run

  datatype Step =
    | Tick(elapsed: nat)
    | NewAlarm
    | DoSchedule(alarm: nat, desired: int)
    | DoCancel(alarm: nat)
    | DoDestroy(alarm: nat)
    | DoFire(functor: nat)
    | DoReturn
    | DoMove(functor: nat)
    | DoDrop(functor: nat)
    | DoAssign(target: nat, source: nat)

  // The client calls only live alarms; the runner fires only due functors, one at a time.
  predicate Enabled(w: World, s: Step) {
    match s
    case Tick(_) => true
    case NewAlarm => true
    case DoSchedule(a, _) => a in w.alarms
    case DoCancel(a) => a in w.alarms
    case DoDestroy(a) => a in w.alarms
    case DoFire(f) => w.running.None? && f in w.queue && f in w.functors && w.queue[f] <= w.now
    case DoReturn => w.running.Some?
    case DoMove(f) => f in w.queue && f in w.functors
    case DoDrop(f) => f in w.queue && f in w.functors
    case DoAssign(dst, src) => dst in w.queue && dst in w.functors && src in w.queue && src in w.functors
  }

  function Next(w: World, s: Step): World
    requires Enabled(w, s)
  {
    match s
    case Tick(elapsed) => w.(now := w.now + elapsed)
    case NewAlarm => Create(w)
    case DoSchedule(a, desired) => Schedule(w, a, desired)
    case DoCancel(a) => Cancel(w, a)
    case DoDestroy(a) => Destroy(w, a)
    case DoFire(f) => Fire(w, f)
    case DoReturn => Returned(w)
    case DoMove(f) => Move(w, f)
    case DoDrop(f) => Drop(w, f)
    case DoAssign(dst, src) => Assign(w, dst, src)
  }

  lemma TickKeeps(w: World, elapsed: nat)
    requires Inv(w)
    ensures Inv(w.(now := w.now + elapsed))
  {
    assert forall a :: a in w.alarms ==> Agrees(w, a) && Agrees(w.(now := w.now + elapsed), a);
  }

  lemma NextKeeps(w: World, s: Step)
    requires Inv(w) && Enabled(w, s)
    ensures Inv(Next(w, s)) && w.log <= Next(w, s).log
  {
    match s
    case Tick(elapsed) => TickKeeps(w, elapsed);
    case NewAlarm => CreateKeeps(w);
    case DoSchedule(a, desired) => ScheduleKeeps(w, a, desired);
    case DoCancel(a) => CancelKeeps(w, a);
    case DoDestroy(a) => DestroyKeeps(w, a);
    case DoFire(f) => FireKeeps(w, f);
    case DoReturn => ReturnedKeeps(w);
    case DoMove(f) => MoveKeeps(w, f);
    case DoDrop(f) => DropKeeps(w, f);
    case DoAssign(dst, src) => AssignKeeps(w, dst, src);
  }

  // A run: each state follows from the one before by an enabled step.
  ghost predicate IsRun(ws: seq<World>, steps: seq<Step>) {
    && |ws| == |steps| + 1
    && ws[0] == World(ws[0].now, map[], map[], map[], None, 0, 0, [], {})
    && forall i :: 0 <= i < |steps| ==> Enabled(ws[i], steps[i]) && ws[i + 1] == Next(ws[i], steps[i])
  }

  lemma {:induction false} RunKeeps(ws: seq<World>, steps: seq<Step>, n: nat)
    requires IsRun(ws, steps) && n < |ws|
    ensures Inv(ws[n])
  {
    if n > 0 {
      RunKeeps(ws, steps, n - 1);
      NextKeeps(ws[n - 1], steps[n - 1]);
    }
  }

  // In every run each client task executes at most once, and only as the latest request of a live
  // alarm that was not cancelled since, at or after the requested time.
  lemma RunIsLawful(ws: seq<World>, steps: seq<Step>, n: nat, i: nat)
    requires IsRun(ws, steps) && n < |ws| && i < |ws[n].log| && ws[n].log[i].Ran?
    ensures var log := ws[n].log;
            && (exists j: nat :: j < i && log[j].Scheduled? && log[j].alarm == log[i].alarm
                  && log[j].task == log[i].task && log[j].time <= log[i].at && Untouched(log, log[i].alarm, j, i))
            && forall k :: 0 <= k < |log| && k != i && log[k].Ran? ==> log[k].task != log[i].task
  {
    RunKeeps(ws, steps, n);
    var log := ws[n].log;
    var j := RunIsOfLatestRequest(log, i);
    forall k | 0 <= k < |log| && k != i && log[k].Ran? ensures log[k].task != log[i].task {
      if k < i { RunsAtMostOnce(log, k, i); } else { RunsAtMostOnce(log, i, k); }
    }
  }
}
