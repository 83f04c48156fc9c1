/** The receiver's application agent as an object (cast/receiver/application_agent.cc). Every method
    makes the step its specification names and keeps the invariant of every run. How a Launch goes is
    a parameter of the method that asks for it. */
module Agents {
  import opened Basics
  import opened Ids
  import opened AgentSpecs

  class ApplicationAgent {
    var registered: map<Id, App>
    var idleScreenApp: Option<App>
    var launchedApp: Option<App>
    var launchedVia: Id
    var portSocket: Option<int>
    ghost var launchedOver: Option<int>
    ghost var trace: seq<Call>
    ghost var broadcasts: seq<Status>

    ghost function Snapshot(): Agent
      reads this
    {
      Agent(registered, idleScreenApp, launchedApp, launchedVia, portSocket, launchedOver, trace, broadcasts)
    }

    ghost predicate Valid()
      reads this
    {
      Inv(Snapshot())
    }

    constructor ()
      ensures Valid() && Snapshot() == Agent(map[], None, None, "", None, None, [], [])
    {
      registered := map[];
      idleScreenApp, launchedApp, portSocket := None, None, None;
      launchedVia := "";
      launchedOver, trace, broadcasts := None, [], [];
    }

    method LaunchApp(app: App, via: Id, socket: Option<int>, ok: bool)
      requires launchedApp.None?
      modifies this
      ensures Snapshot() == Launched(old(Snapshot()), app, via, socket, ok)
    {
      if socket.Some? {
        portSocket := socket;
      }
      trace := trace + [Launch(app, via, ok)];
      if ok {
        launchedApp, launchedVia := Some(app), via;
        launchedOver := socket;
      } else {
        portSocket := None;
      }
    }

    method StopRunning()
      modifies this
      ensures Snapshot() == Stopped(old(Snapshot()))
    {
      if launchedApp.Some? {
        trace := trace + [Stop(launchedApp.value)];
        portSocket := None;
        launchedApp, launchedVia := None, "";
        launchedOver := None;
      }
    }

    method BroadcastReceiverStatus()
      modifies this
      ensures Snapshot() == Broadcast(old(Snapshot()))
    {
      broadcasts := broadcasts + [if launchedApp.Some? then Running(launchedApp.value, launchedVia) else Idle];
    }

    method SwitchToApplication(appId: Id, socket: Option<int>, ok: bool, fallbackOk: bool) returns (error: Error)
      modifies this
      ensures (Snapshot(), error) == Switched(old(Snapshot()), appId, socket, ok, fallbackOk)
    {
      error := NoError;
      var desired: Option<App> := None;
      var fallback: Option<App> := None;
      if appId != "" {
        if appId in registered {
          desired := Some(registered[appId]);
          if desired != idleScreenApp {
            fallback := idleScreenApp;
          }
        } else {
          return NotFound;
        }
      }
      if launchedApp == desired {
        return;
      }
      StopRunning();
      if desired.Some? {
        LaunchApp(desired.value, appId, socket, ok);
        if !ok {
          error := SystemError;
        }
      }
      if launchedApp.None? && fallback.Some? {
        LaunchApp(fallback.value, FirstId(fallback.value), None, fallbackOk);
      }
      BroadcastReceiverStatus();
    }

    method GoIdle(ok: bool)
      modifies this
      ensures Snapshot() == GoneIdle(old(Snapshot()), ok)
    {
      var appId: Id := "";
      if idleScreenApp.Some? {
        appId := FirstId(idleScreenApp.value);
      }
      var _ := SwitchToApplication(appId, None, ok, false);
    }

    method InsertIds(app: App)
      requires forall i :: 0 <= i < |app.ids| ==> app.ids[i] !in registered
      requires forall i, j :: 0 <= i < j < |app.ids| ==> app.ids[i] != app.ids[j]
      modifies this`registered
      ensures registered == old(registered) + Entries(app, |app.ids|)
    {
      for i := 0 to |app.ids|
        invariant registered == old(registered) + Entries(app, i)
      {
        InsertNext(old(registered), app, i);
        assert app.ids[i] !in registered;
        registered := registered[app.ids[i] := app];
      }
    }

    method RegisterApplication(app: App, idle: bool, ok: bool)
      requires Valid() && MayRegister(Snapshot(), app, idle)
      modifies this
      ensures Valid() && Snapshot() == Registered(old(Snapshot()), app, idle, ok)
    {
      RegisteredKeeps(Snapshot(), app, idle, ok);
      InsertIds(app);
      if idle {
        idleScreenApp := Some(app);
        if launchedApp.None? {
          GoIdle(ok);
        }
      }
    }

    method UnregisterApplication(app: App, ok: bool)
      requires Valid()
      modifies this
      ensures Valid() && Snapshot() == Unregistered(old(Snapshot()), app, ok)
    {
      UnregisteredKeeps(Snapshot(), app, ok);
      var ahead := registered.Keys;
      while ahead != {}
        invariant ahead <= registered.Keys <= old(registered).Keys
        invariant Snapshot() == old(Snapshot()).(registered := registered)
        invariant forall id <- registered ::
                    registered[id] == old(registered)[id] && (id in ahead || registered[id] != app)
        invariant forall id <- old(registered) :: id in registered || old(registered)[id] == app
        decreases ahead
      {
        var id :| id in ahead;
        if registered[id] == app {
          registered := registered - {id};
        }
        ahead := ahead - {id};
      }
      assert registered == map id | id in old(registered) && old(registered)[id] != app :: old(registered)[id];
      if idleScreenApp == Some(app) {
        idleScreenApp := None;
      }
      if launchedApp == Some(app) {
        GoIdle(ok);
      }
    }

    method StopApplicationIfRunning(app: App, ok: bool)
      requires Valid()
      modifies this
      ensures Valid() && Snapshot() == StoppedIfRunning(old(Snapshot()), app, ok)
    {
      GoneIdleKeeps(Snapshot(), ok);
      if launchedApp == Some(app) {
        GoIdle(ok);
      }
    }

    // `appId` is absent when the request holds no string for it.
    method HandleLaunch(appId: Option<Id>, socket: int, ok: bool, fallbackOk: bool) returns (error: Error)
      requires Valid()
      modifies this
      ensures Valid()
      ensures error == BadParameter <==> appId == None || appId == Some("")
      ensures error == BadParameter ==> Snapshot() == old(Snapshot())
      ensures error != BadParameter ==>
                (Snapshot(), error) == Switched(old(Snapshot()), appId.value, Some(socket), ok, fallbackOk)
      ensures error == NoError
              ==> launchedApp.Some? && appId.value in registered && launchedApp.value == registered[appId.value]
    {
      if appId.Some? && appId.value != "" {
        SwitchedKeeps(Snapshot(), appId.value, Some(socket), ok, fallbackOk);
        error := SwitchToApplication(appId.value, Some(socket), ok, fallbackOk);
      } else {
        error := BadParameter;
      }
    }

    method HandleStop(session: Session, current: string, ok: bool) returns (accepted: bool)
      requires Valid()
      modifies this
      ensures Valid() && accepted == StopAccepted(old(Snapshot()), session, current)
      ensures Snapshot() == if accepted then GoneIdle(old(Snapshot()), ok) else old(Snapshot())
    {
      GoneIdleKeeps(Snapshot(), ok);
      if session.NoSession? {
        GoIdle(ok);
        return true;
      }
      if session.Session? && launchedApp.Some? && session.id == current {
        GoIdle(ok);
        return true;
      }
      accepted := false;
    }

    // Both OnClose and OnError.
    method OnClose(socket: int, ok: bool)
      requires Valid()
      modifies this
      ensures Valid() && Snapshot() == Closed(old(Snapshot()), socket, ok)
    {
      GoneIdleKeeps(Snapshot(), ok);
      if SocketId(portSocket) == socket {
        GoIdle(ok);
      }
    }

    // The socket the port points at is destroyed, and the weak pointer expires with it.
    method SocketGone()
      requires Valid()
      modifies this
      ensures Valid() && Snapshot() == old(Snapshot()).(portSocket := None)
    {
      portSocket := None;
    }

    method Destroy()
      requires Valid()
      modifies this
      ensures Valid() && Snapshot() == Destroyed(old(Snapshot()))
    {
      SwitchedKeeps(Snapshot().(idleScreenApp := None), "", None, false, false);
      idleScreenApp := None;
      var _ := SwitchToApplication("", None, false, false);
    }
  }
}
