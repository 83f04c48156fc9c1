/** The Alarm and CancelableFunctor classes of util/alarm.cc, method by method, over an explicit heap
    of alarms and functors. Each method is proved to take the step of AlarmSpecs it stands for; each
    OSP_CHECK and each pointer dereference is an assertion. */
module Alarms {
  import opened Basics
  import opened AlarmLogs
  import opened AlarmSpecs

  class AlarmSystem {
    var now: int
    var alarms: map<nat, AlarmState>
    var functors: map<nat, Option<nat>>
    var queue: map<nat, int>
    var running: Option<nat>
    var nextAddress: nat
    var nextTask: nat
    ghost var log: seq<Event>
    ghost var abandoned: set<nat>

    ghost function Snapshot(): World
      reads this
    {
      World(now, alarms, functors, queue, running, nextAddress, nextTask, log, abandoned)
    }

    ghost predicate Valid()
      reads this
    {
      Inv(Snapshot())
    }

    constructor (now: int)
      ensures Valid() && Snapshot() == World(now, map[], map[], map[], None, 0, 0, [], {})
    {
      this.now := now;
      alarms, functors, queue, running := map[], map[], map[], None;
      nextAddress, nextTask := 0, 0;
      log, abandoned := [], {};
    }

    method NewAlarm() returns (a: nat)
      requires Valid()
      modifies this
      ensures Valid() && a == old(nextAddress) && Snapshot() == Create(old(Snapshot()))
    {
      CreateKeeps(Snapshot());
      a := nextAddress;
      nextAddress := nextAddress + 1;
      alarms := alarms[a := NEW_ALARM];
    }

    // ---------- CancelableFunctor

    // What the checks of the functor demand of `f`: its alarm exists and points back at it.
    ghost predicate PointsBack(f: nat)
      reads this
    {
      f in functors &&
      (functors[f].Some? ==> functors[f].value in alarms && alarms[functors[f].value].queuedFire == Some(f))
    }

    method ConstructFunctor(a: nat) returns (f: nat)
      requires a in alarms && alarms[a].queuedFire.None?
      modifies this`alarms, this`functors, this`nextAddress
      ensures f == old(nextAddress) && nextAddress == f + 1 && PointsBack(f)
      ensures functors == old(functors)[f := Some(a)]
      ensures alarms == old(alarms)[a := old(alarms)[a].(queuedFire := Some(f))]
    {
      f := nextAddress;
      nextAddress := nextAddress + 1;
      functors := functors[f := Some(a)];
      assert alarms[a].queuedFire.None?;
      alarms := alarms[a := alarms[a].(queuedFire := Some(f))];
    }

    method MoveFunctor(src: nat) returns (dst: nat)
      requires PointsBack(src) && src < nextAddress
      modifies this`alarms, this`functors, this`nextAddress
      ensures dst == old(nextAddress) && nextAddress == dst + 1 && PointsBack(dst) && PointsBack(src)
      ensures functors == old(functors)[dst := old(functors)[src]][src := None]
      ensures alarms == match old(functors)[src]
                        case None => old(alarms)
                        case Some(a) => old(alarms)[a := old(alarms)[a].(queuedFire := Some(dst))]
    {
      dst := nextAddress;
      nextAddress := nextAddress + 1;
      var pointer := functors[src];
      functors := functors[dst := pointer][src := None];
      if pointer.Some? {
        var a := pointer.value;
        assert alarms[a].queuedFire == Some(src);
        alarms := alarms[a := alarms[a].(queuedFire := Some(dst))];
      }
    }

    // Move assignment. Whatever `dst` was to fire is lost; assigned to itself, a functor ends up empty.
    method AssignFunctor(dst: nat, src: nat)
      requires PointsBack(dst) && PointsBack(src)
      modifies this`alarms, this`functors
      ensures functors == old(functors)[dst := if dst == src then None else old(functors)[src]][src := None]
      ensures PointsBack(dst) && PointsBack(src)
      ensures alarms == WithFiring(WithoutFiring(old(alarms), old(functors)[dst]),
                                   if dst == src then None else old(functors)[src], dst)
    {
      CancelFunctor(dst);
      var pointer := functors[src];
      functors := functors[dst := pointer][src := None];
      if pointer.Some? {
        var a := pointer.value;
        assert alarms[a].queuedFire == Some(src);
        alarms := alarms[a := alarms[a].(queuedFire := Some(dst))];
      }
    }

    method CancelFunctor(f: nat)
      requires PointsBack(f)
      modifies this`alarms, this`functors
      ensures functors == old(functors)[f := None]
      ensures alarms == match old(functors)[f]
                        case None => old(alarms)
                        case Some(a) => old(alarms)[a := old(alarms)[a].(queuedFire := None)]
    {
      if functors[f].Some? {
        var a := functors[f].value;
        assert alarms[a].queuedFire == Some(f);
        alarms := alarms[a := alarms[a].(queuedFire := None)];
        functors := functors[f := None];
      }
    }

    method DestroyFunctor(f: nat)
      requires PointsBack(f)
      modifies this`alarms, this`functors
      ensures functors == old(functors) - {f}
      ensures alarms == match old(functors)[f]
                        case None => old(alarms)
                        case Some(a) => old(alarms)[a := old(alarms)[a].(queuedFire := None)]
    {
      CancelFunctor(f);
      functors := functors - {f};
    }

    // ---------- Alarm

    // Builds a functor, moves it into the runner's queue and destroys what it was moved from.
    method InvokeLater(a: nat, fireTime: int)
      requires a in alarms && alarms[a].queuedFire.None? && nextAddress !in functors
      modifies this`alarms, this`functors, this`queue, this`nextAddress
      ensures Snapshot() == Posted(old(Snapshot()), a, fireTime)
    {
      assert alarms[a].queuedFire.None?;
      alarms := alarms[a := alarms[a].(nextFireTime := fireTime)];
      var temporary := ConstructFunctor(a);
      var f := MoveFunctor(temporary);
      DestroyFunctor(temporary);
      var delay := fireTime - now;
      queue := queue[f := now + delay];
      assert functors == old(functors)[f := Some(a)];
    }

    method ScheduleWithTask(a: nat, desiredAlarmTime: int) returns (task: nat)
      requires Valid() && a in alarms
      modifies this
      ensures Valid() && Snapshot() == Schedule(old(Snapshot()), a, desiredAlarmTime) && task == old(nextTask)
    {
      ghost var w := Snapshot();
      task := Request(a, desiredAlarmTime);
      ScheduleKeeps(w, a, desiredAlarmTime);
    }

    // The posted firing of `a`, if any, is a live functor that points back at it.
    ghost predicate FiringPointsBack(a: nat)
      reads this
    {
      a in alarms && nextAddress !in functors &&
      (alarms[a].queuedFire.Some? ==>
         PointsBack(alarms[a].queuedFire.value) && functors[alarms[a].queuedFire.value] == Some(a))
    }

    method Request(a: nat, desiredAlarmTime: int) returns (task: nat)
      requires FiringPointsBack(a)
      modifies this
      ensures Snapshot() == Schedule(old(Snapshot()), a, desiredAlarmTime) && task == old(nextTask)
    {
      task := nextTask;
      nextTask := nextTask + 1;
      log, abandoned := log + [Scheduled(a, task, desiredAlarmTime, now)], abandoned - {a};
      var alarmTime := if now < desiredAlarmTime then desiredAlarmTime else now;
      alarms := alarms[a := alarms[a].(scheduledTask := Some(task), alarmTime := alarmTime)];
      EnsureFiring(a);
    }

    // Ensures that a later firing will occur, and not too late.
    method EnsureFiring(a: nat)
      requires FiringPointsBack(a)
      modifies this`alarms, this`functors, this`queue, this`nextAddress
      ensures var w := old(Snapshot());
              var s := w.alarms[a];
              Snapshot() == if s.queuedFire.Some? && s.nextFireTime <= s.alarmTime then w
                            else Posted(Unposted(w, a), a, s.alarmTime)
    {
      if alarms[a].queuedFire.Some? {
        if alarms[a].nextFireTime <= alarms[a].alarmTime {
          return;
        }
        CancelFunctor(alarms[a].queuedFire.value);
        assert alarms[a].queuedFire.None?;
      }
      InvokeLater(a, alarms[a].alarmTime);
    }

    method Cancel(a: nat)
      requires Valid() && a in alarms
      modifies this`alarms, this`log
      ensures Valid() && Snapshot() == AlarmSpecs.Cancel(old(Snapshot()), a)
    {
      CancelKeeps(Snapshot(), a);
      alarms := alarms[a := alarms[a].(scheduledTask := None)];
      log := log + [Cancelled(a)];
    }

    method DestroyAlarm(a: nat)
      requires Valid() && a in alarms
      modifies this`alarms, this`functors, this`log
      ensures Valid() && Snapshot() == Destroy(old(Snapshot()), a)
    {
      DestroyKeeps(Snapshot(), a);
      if alarms[a].queuedFire.Some? {
        CancelFunctor(alarms[a].queuedFire.value);
        assert alarms[a].queuedFire.None?;
      }
      alarms := alarms - {a};
      log := log + [Destroyed(a)];
    }

    // Runs the client's task now, tries again later, or does nothing.
    method TryInvoke(a: nat) returns (ran: Option<nat>)
      requires a in alarms && alarms[a].queuedFire.None? && nextAddress !in functors
      modifies this`alarms, this`functors, this`queue, this`nextAddress, this`log
      ensures Snapshot() == Tried(old(Snapshot()), a)
      ensures ran == if alarms[a].alarmTime <= now then old(alarms)[a].scheduledTask else None
    {
      ran := None;
      if alarms[a].scheduledTask.None? {
        return;
      }
      if now < alarms[a].alarmTime {
        InvokeLater(a, alarms[a].alarmTime);
        return;
      }
      ran := alarms[a].scheduledTask;
      alarms := alarms[a := alarms[a].(scheduledTask := None)];
      log := log + [Ran(a, ran.value, now)];
    }

    // ---------- The runner

    // The runner takes a due functor out of its queue and calls it. If that starts a client task,
    // the functor stays on the stack until TaskReturned.
    method Fire(f: nat) returns (ran: Option<nat>)
      requires Valid() && running.None? && f in queue && queue[f] <= now
      modifies this
      ensures Valid() && Snapshot() == AlarmSpecs.Fire(old(Snapshot()), f)
      ensures ran.Some? <==> Starts(old(Snapshot()), f)
      ensures ran.Some? ==> ran == old(alarms)[old(functors)[f].value].scheduledTask
    {
      FireKeeps(Snapshot(), f);
      queue := queue - {f};
      running := Some(f);
      ran := None;
      if functors[f].Some? {
        var a := functors[f].value;
        assert alarms[a].queuedFire == Some(f);
        alarms := alarms[a := alarms[a].(queuedFire := None)];
        ran := TryInvoke(a);
      }
      if ran.None? {
        FinishFunctor();
      }
    }

    // After the call: the functor forgets its alarm, dead or alive, and the runner destroys it.
    method FinishFunctor()
      requires running.Some? && running.value in functors
      modifies this`functors, this`running
      ensures Snapshot() == Returned(old(Snapshot()))
    {
      var f := running.value;
      functors := functors[f := None];
      functors := functors - {f};
      running := None;
    }

    method TaskReturned()
      requires Valid() && running.Some?
      modifies this`functors, this`running
      ensures Valid() && Snapshot() == Returned(old(Snapshot()))
    {
      ReturnedKeeps(Snapshot());
      FinishFunctor();
    }

    method MoveQueued(f: nat) returns (moved: nat)
      requires Valid() && f in queue
      modifies this`alarms, this`functors, this`queue, this`nextAddress
      ensures Valid() && Snapshot() == Move(old(Snapshot()), f) && moved == old(nextAddress)
    {
      MoveKeeps(Snapshot(), f);
      moved := Relocate(f);
    }

    method Relocate(f: nat) returns (moved: nat)
      requires PointsBack(f) && f in queue && f < nextAddress
      modifies this`alarms, this`functors, this`queue, this`nextAddress
      ensures Snapshot() == Move(old(Snapshot()), f) && moved == old(nextAddress)
    {
      moved := MoveFunctor(f);
      DestroyFunctor(f);
      queue := (queue - {f})[moved := queue[f]];
      assert functors == (old(functors) - {f})[moved := old(functors)[f]];
    }

    method AssignQueued(dst: nat, src: nat)
      requires Valid() && dst in queue && src in queue
      modifies this
      ensures Valid() && Snapshot() == Assign(old(Snapshot()), dst, src)
    {
      AssignKeeps(Snapshot(), dst, src);
      AssignEntry(dst, src);
    }

    method AssignEntry(dst: nat, src: nat)
      requires PointsBack(dst) && PointsBack(src) && dst in queue && src in queue
      modifies this`alarms, this`functors, this`queue, this`abandoned
      ensures Snapshot() == Assign(old(Snapshot()), dst, src)
    {
      abandoned := abandoned + if functors[dst].Some? then {functors[dst].value} else {};
      AssignFunctor(dst, src);
      queue := queue[dst := queue[src]];
    }

    method DropQueued(f: nat)
      requires Valid() && f in queue
      modifies this
      ensures Valid() && Snapshot() == Drop(old(Snapshot()), f)
    {
      DropKeeps(Snapshot(), f);
      if functors[f].Some? {
        abandoned := abandoned + {functors[f].value};
      }
      DestroyFunctor(f);
      queue := queue - {f};
    }
  }
}
