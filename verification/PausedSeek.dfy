/** The controller's seek state as an object (cast/standalone_sender/controlcast_jni.cpp): one method for each
    locked section and for each task that touches it. */
module PausedSeeks {
  import opened PausedSeekSpecs

  class SeekState {
    var queue: seq<Seek>
    var drainPosted: bool
    var playing: bool
    var agent: bool
    var tasks: seq<Task>
    var drainer: Drainer
    var requests: nat
    ghost var posting: seq<Task>
    ghost var executed: seq<Seek>

    ghost function Snapshot(): State
      reads this
    {
      State(queue, drainPosted, playing, agent, posting, tasks, drainer, requests, executed)
    }

    ghost predicate Valid()
      reads this
    {
      Inv(Snapshot())
    }

    constructor ()
      ensures Valid() && Snapshot() == INITIAL
    {
      queue, drainPosted, playing, agent := [], false, false, false;
      tasks, drainer, requests := [], NotRunning, 0;
      posting, executed := [], [];
    }

    method ClearQueue()
      modifies this`queue, this`drainPosted
      ensures queue == [] && !drainPosted
    {
      queue := [];
      drainPosted := false;
    }

    // The locked section of nativeSeekTo. The caller posts `task` next, if there is one.
    method NativeSeekTo(position: int, storm: bool) returns (task: seq<Task>)
      requires Valid()
      modifies this
      ensures Valid() && Snapshot() == Requested(old(Snapshot()), position, storm)
      ensures posting == old(posting) + task && |task| <= 1
      ensures task == [] ==> !old(playing) && queue == [Seek(old(requests), Clamped(position))]
    {
      RequestedKeeps(Snapshot(), position, storm);
      EnqueuedKeeps(Snapshot(), Seek(requests, Clamped(position)));
      var seek := Seek(requests, if position < 0 then 0 else position);
      requests := requests + 1;
      var queuePausedSeek := !playing;
      if storm {
        ClearQueue();
        playing := true;
      }
      if queuePausedSeek {
        if |queue| >= CAPACITY {
          queue := queue[1..];
        }
        queue := queue + [seek];
        if !drainPosted {
          drainPosted := true;
          tasks := tasks + [Drain];
        }
      }
      task := if storm then [Storm(seek)] else if !queuePausedSeek then [Direct(seek)] else [];
      posting := posting + task;
    }

    method PostTask(ghost i: nat, task: Task)
      requires Valid() && i < |posting| && task == posting[i]
      modifies this
      ensures Valid() && Snapshot() == Posted(old(Snapshot()), i)
    {
      PostedKeeps(Snapshot(), i);
      tasks := tasks + [task];
      posting := posting[..i] + posting[i + 1..];
    }

    // The task runner takes the next task. Every task but the drain is done at once.
    method RunNextTask()
      requires Valid() && drainer == NotRunning && tasks != []
      modifies this
      ensures Valid() && Snapshot() == Begun(old(Snapshot()))
    {
      BegunKeeps(Snapshot());
      var task := tasks[0];
      tasks := tasks[1..];
      match task {
        case Drain => drainer := Looping;
        case Direct(seek) => AgentSeekTo(seek);
        case Storm(seek) => AgentSeekTo(seek);
        case Play => if agent { ClearQueue(); }
        case Disconnect => ClearQueue(); agent := false;
        case Connect => agent := true;
      }
    }

    method AgentSeekTo(seek: Seek)
      modifies this`executed
      ensures executed == if agent then old(executed) + [seek] else old(executed)
    {
      if agent {
        executed := executed + [seek];
      }
    }

    // One locked section of DrainPausedSeekQueue.
    method DrainNext()
      requires Valid() && drainer == Looping
      modifies this
      ensures Valid() && Snapshot() == Drained(old(Snapshot()))
    {
      if queue == [] {
        drainPosted := false;
        drainer := NotRunning;
        return;
      }
      drainer := Holding(queue[0]);
      queue := queue[1..];
    }

    // And what follows it.
    method ExecuteSeek()
      requires Valid() && drainer.Holding?
      modifies this
      ensures Valid() && Snapshot() == Sought(old(Snapshot()))
    {
      AgentSeekTo(drainer.seek);
      drainer := Looping;
    }
  }
}
