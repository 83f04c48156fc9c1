/** What an alarm owes its clients, stated on the log of what happened to it: a task runs only if it
    is the one most recently scheduled, not cancelled, not run before, its alarm not destroyed, and
    never before the time it was asked for. */
module AlarmLogs {
  import opened Basics

  datatype Event =
    | Scheduled(alarm: nat, task: nat, time: int, made: int)    // asked for at `made`, to run at `time`
    | Cancelled(alarm: nat)
    | Destroyed(alarm: nat)
    | Ran(alarm: nat, task: nat, at: int)

  datatype Request = Request(task: nat, time: int, made: int)

  // The request that stands for alarm `a` after `log`: what its last event left behind.
  function Standing(log: seq<Event>, a: nat): (r: Option<Request>)
    decreases |log|
  {
    if log == [] then None
    else
      var last := log[|log| - 1];
      if last.alarm != a then Standing(log[..|log| - 1], a)
      else if last.Scheduled? then Some(Request(last.task, last.time, last.made))
      else None
  }

  // Event `e` may happen after `log`.
  ghost predicate Allowed(log: seq<Event>, e: Event) {
    match e
    case Scheduled(_, task, _, _) => forall i :: 0 <= i < |log| ==> log[i].Scheduled? ==> log[i].task != task
    case Ran(a, task, at) =>
      var r := Standing(log, a);
      r.Some? && r.value.task == task && r.value.time <= at
    case _ => true
  }

  ghost predicate Lawful(log: seq<Event>) {
    forall i :: 0 <= i < |log| ==> Allowed(log[..i], log[i])
  }

  lemma LawfulExtend(log: seq<Event>, e: Event)
    requires Lawful(log) && Allowed(log, e)
    ensures Lawful(log + [e])
  {
    var longer := log + [e];
    forall i | 0 <= i < |longer| ensures Allowed(longer[..i], longer[i]) {
      if i < |log| {
        assert longer[..i] == log[..i];
      } else {
        assert longer[..i] == log;
      }
    }
  }

  lemma StandingExtend(log: seq<Event>, e: Event, a: nat)
    ensures Standing(log + [e], a)
         == if e.alarm != a then Standing(log, a)
            else if e.Scheduled? then Some(Request(e.task, e.time, e.made)) else None
  {
    assert (log + [e])[..|log|] == log;
  }

  // Nothing that concerns alarm `a` lies strictly between positions j and i.
  ghost predicate Untouched(log: seq<Event>, a: nat, j: int, i: int)
    requires 0 <= j && i <= |log|
  {
    forall k :: j < k < i ==> log[k].alarm != a
  }

  // A standing request was made by a Scheduled event that nothing has touched since.
  lemma {:induction false} StandingWasScheduled(log: seq<Event>, a: nat) returns (j: nat)
    requires Standing(log, a).Some?
    ensures j < |log| && Untouched(log, a, j, |log|)
    ensures var r := Standing(log, a).value; log[j] == Scheduled(a, r.task, r.time, r.made)
    decreases |log|
  {
    var n := |log| - 1;
    if log[n].alarm == a {
      j := n;
    } else {
      j := StandingWasScheduled(log[..n], a);
      assert log[..n][j] == log[j];
      forall k | j < k < |log| ensures log[k].alarm != a {
        if k < n { assert log[..n][k] == log[k]; }
      }
    }
  }

  // Every run is of the latest request, which was neither cancelled nor outlived, and not early.
  lemma RunIsOfLatestRequest(log: seq<Event>, i: nat) returns (j: nat)
    requires Lawful(log) && i < |log| && log[i].Ran?
    ensures j < i && log[j].Scheduled? && Untouched(log, log[i].alarm, j, i)
    ensures log[j].alarm == log[i].alarm && log[j].task == log[i].task && log[j].time <= log[i].at
  {
    assert Allowed(log[..i], log[i]);
    j := StandingWasScheduled(log[..i], log[i].alarm);
    assert log[..i][j] == log[j];
    forall k | j < k < i ensures log[k].alarm != log[i].alarm {
      assert log[..i][k] == log[k];
    }
  }

  // No task runs twice.
  lemma RunsAtMostOnce(log: seq<Event>, i: nat, k: nat)
    requires Lawful(log) && i < k < |log| && log[i].Ran? && log[k].Ran?
    ensures log[i].task != log[k].task
  {
    var j := RunIsOfLatestRequest(log, i);
    var l := RunIsOfLatestRequest(log, k);
    if j < l {
      SchedulesDiffer(log, j, l);
    } else if l < j {
      SchedulesDiffer(log, l, j);
    } else {
      assert false;  // the run at i lies between the request and the run at k
    }
  }

  // Each task is scheduled once.
  lemma SchedulesDiffer(log: seq<Event>, j: nat, l: nat)
    requires Lawful(log) && j < l < |log| && log[j].Scheduled? && log[l].Scheduled?
    ensures log[j].task != log[l].task
  {
    assert Allowed(log[..l], log[l]);
    assert log[..l][j] == log[j];
  }

  lemma {:induction false} NothingStandsUnmentioned(log: seq<Event>, a: nat)
    requires forall i :: 0 <= i < |log| ==> log[i].alarm != a
    ensures Standing(log, a).None?
    decreases |log|
  {
    if log != [] { NothingStandsUnmentioned(log[..|log| - 1], a); }
  }
}
