/** The launch, stop and idle-fallback behaviour of the receiver's application agent
    (cast/receiver/application_agent.cc), as steps of one state.

    Whether an application's Launch succeeds is an input of the step. Applications do not call the
    agent back from within Launch or Stop. */
module AgentSpecs {
  import opened Basics
  import opened Ids

  // An application, with the one or more ids it answers to.
  datatype App = App(name: nat, ids: seq<Id>)

  // What the agent asked of applications, and how a launch went.
  datatype Call = Launch(app: App, via: Id, ok: bool) | Stop(app: App)

  datatype Error = NoError | NotFound | SystemError | BadParameter

  // What a status broadcast says is running.
  datatype Status = Idle | Running(app: App, via: Id)

  datatype Agent = Agent(
    registered: map<Id, App>,
    idleScreenApp: Option<App>,
    launchedApp: Option<App>,
    launchedVia: Id,
    portSocket: Option<int>,
    launchedOver: Option<int>,     // the socket whose LAUNCH request started the running app
    trace: seq<Call>,
    broadcasts: seq<Status>)

  // ---------- What a trace of calls says

  function RunningAfter(trace: seq<Call>): Option<App> {
    if trace == [] then None
    else match trace[|trace| - 1]
      case Launch(app, _, ok) => if ok then Some(app) else RunningAfter(trace[..|trace| - 1])
      case Stop(_) => None
  }

  // Launches happen only while nothing runs, and only what runs is stopped.
  ghost predicate Orderly(trace: seq<Call>) {
    forall i :: 0 <= i < |trace| ==>
      match trace[i]
      case Launch(_, _, _) => RunningAfter(trace[..i]).None?
      case Stop(app) => RunningAfter(trace[..i]) == Some(app)
  }

  lemma OrderlyExtend(trace: seq<Call>, c: Call)
    requires Orderly(trace)
    requires match c
             case Launch(_, _, _) => RunningAfter(trace).None?
             case Stop(app) => RunningAfter(trace) == Some(app)
    ensures Orderly(trace + [c])
    ensures RunningAfter(trace + [c]) ==
              match c case Launch(app, _, ok) => (if ok then Some(app) else RunningAfter(trace)) case Stop(_) => None
  {
    var longer := trace + [c];
    assert longer[..|trace|] == trace;
    forall i | 0 <= i < |trace| ensures longer[..i] == trace[..i] && longer[i] == trace[i] {}
  }

  predicate Started(c: Call, app: App) { c.Launch? && c.ok && c.app == app }
  predicate Ended(c: Call, app: App) { c.Stop? && c.app == app }

  // What runs was launched by the very last call.
  lemma RunningWasLaunchedLast(trace: seq<Call>, n: nat)
    requires Orderly(trace) && n <= |trace| && RunningAfter(trace[..n]).Some?
    ensures n > 0 && Started(trace[n - 1], RunningAfter(trace[..n]).value)
  {
    assert trace[..n][..n - 1] == trace[..n - 1] && trace[..n][n - 1] == trace[n - 1];
  }

  // The call after a successful launch of `app`, if there is one, stops it, and the call before a stop
  // is the launch it ends: for each application successful launches and stops alternate, starting with
  // a launch, and no other application is launched in between.
  lemma LaunchesAndStopsAlternate(trace: seq<Call>, app: App, i: nat)
    requires Orderly(trace) && i < |trace|
    ensures Started(trace[i], app) && i + 1 < |trace| ==> Ended(trace[i + 1], app)
    ensures Ended(trace[i], app) ==> i > 0 && Started(trace[i - 1], app)
  {
    if Started(trace[i], app) && i + 1 < |trace| {
      assert trace[..i + 1][..i] == trace[..i] && trace[..i + 1][i] == trace[i];
    }
    if Ended(trace[i], app) { RunningWasLaunchedLast(trace, i); }
  }

  // ---------- The invariant

  function LastBroadcast(broadcasts: seq<Status>): Status {
    if broadcasts == [] then Idle else broadcasts[|broadcasts| - 1]
  }

  function CurrentStatus(a: Agent): Status {
    if a.launchedApp.Some? then Running(a.launchedApp.value, a.launchedVia) else Idle
  }

  // Calls, idle screen and port: what holds even while the running application is unregistered and
  // the change is not broadcast.
  ghost predicate Steady(a: Agent) {
    && Orderly(a.trace) && RunningAfter(a.trace) == a.launchedApp
    && (a.idleScreenApp.Some? ==>
          var app := a.idleScreenApp.value;
          app.ids != [] && app.ids[0] in a.registered && a.registered[app.ids[0]] == app)
    && "" !in a.registered
    && (a.portSocket.Some? ==> a.launchedApp.Some? && a.launchedOver == a.portSocket)
  }

  predicate RunningRegistered(a: Agent) {
    a.launchedApp.Some? ==> a.launchedVia in a.registered && a.registered[a.launchedVia] == a.launchedApp.value
  }

  ghost predicate Inv(a: Agent) {
    Steady(a) && RunningRegistered(a) && LastBroadcast(a.broadcasts) == CurrentStatus(a)
  }

  // ---------- Steps

  // The running application, if any, is stopped and lets go of the port.
  function Stopped(a: Agent): Agent {
    if a.launchedApp.None? then a else
      a.(launchedApp := None, launchedVia := "", portSocket := None, launchedOver := None,
         trace := a.trace + [Stop(a.launchedApp.value)])
  }

  function Launched(a: Agent, app: App, via: Id, socket: Option<int>, ok: bool): Agent {
    var b := a.(trace := a.trace + [Launch(app, via, ok)]);
    if ok then
      b.(launchedApp := Some(app), launchedVia := via, launchedOver := socket,
         portSocket := if socket.Some? then socket else a.portSocket)
    else b.(portSocket := None)
  }

  function Broadcast(a: Agent): Agent {
    a.(broadcasts := a.broadcasts + [CurrentStatus(a)])
  }

  function Desired(a: Agent, appId: Id): Option<App> {
    if appId in a.registered then Some(a.registered[appId]) else None
  }

  function FirstId(app: App): Id {
    if app.ids == [] then "" else app.ids[0]
  }

  // SwitchToApplication. `ok` is how the desired launch goes, `fallbackOk` how the idle screen's does.
  function Switched(a: Agent, appId: Id, socket: Option<int>, ok: bool, fallbackOk: bool): (r: (Agent, Error)) {
    if appId != "" && appId !in a.registered then (a, NotFound)
    else
      var desired := if appId == "" then None else Desired(a, appId);
      if a.launchedApp == desired then (a, NoError)
      else
        var b := Stopped(a);
        if desired.None? then (Broadcast(b), NoError)
        else (Broadcast(Relaunched(b, desired.value, appId, socket, ok, fallbackOk)),
              if ok then NoError else SystemError)
  }

  // A launch, and the idle screen's where it fails.
  function Relaunched(a: Agent, app: App, appId: Id, socket: Option<int>, ok: bool, fallbackOk: bool): Agent {
    var b := Launched(a, app, appId, socket, ok);
    if ok || a.idleScreenApp.None? || a.idleScreenApp.value == app then b
    else Launched(b, a.idleScreenApp.value, FirstId(a.idleScreenApp.value), None, fallbackOk)
  }

  function IdleId(a: Agent): Id {
    if a.idleScreenApp.Some? then FirstId(a.idleScreenApp.value) else ""
  }

  function GoneIdle(a: Agent, ok: bool): Agent {
    Switched(a, IdleId(a), None, ok, false).0
  }

  predicate MayRegister(a: Agent, app: App, idle: bool) {
    && app.ids != [] && (forall i :: 0 <= i < |app.ids| ==> app.ids[i] != "" && app.ids[i] !in a.registered)
    && (forall i, j :: 0 <= i < j < |app.ids| ==> app.ids[i] != app.ids[j])
    && (idle ==> a.idleScreenApp.None?)
  }

  // The entries of an application's first `n` ids.
  function Entries(app: App, n: nat): map<Id, App>
    requires n <= |app.ids|
  {
    map id | id in app.ids[..n] :: app
  }

  // Inserting the next id meets no earlier entry and extends the entries by one.
  lemma InsertNext(m: map<Id, App>, app: App, n: nat)
    requires n < |app.ids| && app.ids[n] !in m
    requires forall i, j :: 0 <= i < j < |app.ids| ==> app.ids[i] != app.ids[j]
    ensures app.ids[n] !in m + Entries(app, n)
    ensures (m + Entries(app, n))[app.ids[n] := app] == m + Entries(app, n + 1)
  {
    assert app.ids[..n + 1] == app.ids[..n] + [app.ids[n]];
    assert app.ids[n] !in app.ids[..n];
  }

  function Registered(a: Agent, app: App, idle: bool, ok: bool): Agent {
    var b := a.(registered := a.registered + Entries(app, |app.ids|));
    if !idle then b
    else
      var c := b.(idleScreenApp := Some(app));
      if c.launchedApp.None? then GoneIdle(c, ok) else c
  }

  function Unregistered(a: Agent, app: App, ok: bool): Agent {
    var b := a.(registered := map id | id in a.registered && a.registered[id] != app :: a.registered[id],
                idleScreenApp := if a.idleScreenApp == Some(app) then None else a.idleScreenApp);
    if b.launchedApp == Some(app) then GoneIdle(b, ok) else b
  }

  // An application asks to be stopped.
  function StoppedIfRunning(a: Agent, app: App, ok: bool): Agent {
    if a.launchedApp == Some(app) then GoneIdle(a, ok) else a
  }

  // The session a STOP request names: none, one that is no string, or a string.
  datatype Session = NoSession | NotAString | Session(id: string)

  // `current` is the session id the running application, if any, reports.
  predicate StopAccepted(a: Agent, session: Session, current: string) {
    session.NoSession? || (session.Session? && a.launchedApp.Some? && session.id == current)
  }

  // The agent's destruction: the idle screen is not to be launched again.
  function Destroyed(a: Agent): Agent {
    Switched(a.(idleScreenApp := None), "", None, false, false).0
  }

  function SocketId(socket: Option<int>): int {
    if socket.Some? then socket.value else 0
  }

  // A socket closed or failed.
  function Closed(a: Agent, socket: int, ok: bool): Agent {
    if SocketId(a.portSocket) == socket then GoneIdle(a, ok) else a
  }

  // ---------- Every step keeps the invariant

  lemma StoppedKeeps(a: Agent)
    requires Steady(a)
    ensures Steady(Stopped(a)) && Stopped(a).launchedApp.None?
    ensures Stopped(a).registered == a.registered && Stopped(a).idleScreenApp == a.idleScreenApp
  {
    if a.launchedApp.Some? { OrderlyExtend(a.trace, Stop(a.launchedApp.value)); }
  }

  lemma LaunchedKeeps(a: Agent, app: App, via: Id, socket: Option<int>, ok: bool)
    requires Steady(a) && a.launchedApp.None? && via in a.registered && a.registered[via] == app
    ensures Steady(Launched(a, app, via, socket, ok)) && RunningRegistered(Launched(a, app, via, socket, ok))
    ensures Launched(a, app, via, socket, ok).launchedApp == if ok then Some(app) else None
  {
    OrderlyExtend(a.trace, Launch(app, via, ok));
  }

  lemma BroadcastKeeps(a: Agent)
    requires Steady(a) && RunningRegistered(a)
    ensures Inv(Broadcast(a))
  {
  }

  lemma RelaunchedKeeps(a: Agent, app: App, via: Id, socket: Option<int>, ok: bool, fallbackOk: bool)
    requires Steady(a) && a.launchedApp.None? && via in a.registered && a.registered[via] == app
    ensures Steady(Relaunched(a, app, via, socket, ok, fallbackOk))
    ensures RunningRegistered(Relaunched(a, app, via, socket, ok, fallbackOk))
  {
    LaunchedKeeps(a, app, via, socket, ok);
    if !ok && a.idleScreenApp.Some? {
      var idle := a.idleScreenApp.value;
      LaunchedKeeps(Launched(a, app, via, socket, ok), idle, FirstId(idle), None, fallbackOk);
    }
  }

  // The running app must be registered, unless this call is sure to stop it.
  lemma SwitchedKeeps(a: Agent, appId: Id, socket: Option<int>, ok: bool, fallbackOk: bool)
    requires Steady(a) && LastBroadcast(a.broadcasts) == CurrentStatus(a)
    requires RunningRegistered(a) || appId == ""
            || (appId in a.registered && Some(a.registered[appId]) != a.launchedApp)
    ensures Inv(Switched(a, appId, socket, ok, fallbackOk).0)
  {
    var b := Stopped(a);
    StoppedKeeps(a);
    if appId == "" {
      BroadcastKeeps(b);
    } else if appId in a.registered && a.launchedApp != Some(a.registered[appId]) {
      RelaunchedKeeps(b, a.registered[appId], appId, socket, ok, fallbackOk);
      BroadcastKeeps(Relaunched(b, a.registered[appId], appId, socket, ok, fallbackOk));
    }
  }

  lemma GoneIdleKeeps(a: Agent, ok: bool)
    requires Inv(a)
    ensures Inv(GoneIdle(a, ok))
  {
    SwitchedKeeps(a, IdleId(a), None, ok, false);
  }

  lemma RegisteredKeeps(a: Agent, app: App, idle: bool, ok: bool)
    requires Inv(a) && MayRegister(a, app, idle)
    ensures Inv(Registered(a, app, idle, ok))
  {
    assert app.ids[0] in app.ids[..|app.ids|];
    var b := a.(registered := a.registered + Entries(app, |app.ids|));
    assert Inv(b);
    if idle {
      var c := b.(idleScreenApp := Some(app));
      assert Inv(c);
      GoneIdleKeeps(c, ok);
    }
  }

  lemma UnregisteredKeeps(a: Agent, app: App, ok: bool)
    requires Inv(a)
    ensures Inv(Unregistered(a, app, ok))
  {
    var b := a.(registered := map id | id in a.registered && a.registered[id] != app :: a.registered[id],
                idleScreenApp := if a.idleScreenApp == Some(app) then None else a.idleScreenApp);
    if b.launchedApp == Some(app) {
      SwitchedKeeps(b, IdleId(b), None, ok, false);
    }
  }

  // ---------- Every run

  datatype Event =
    | Register(app: App, idle: bool, ok: bool)
    | Unregister(app: App, ok: bool)
    | LaunchRequest(appId: Id, socket: int, ok: bool, fallbackOk: bool)
    | StopRequest(session: Session, current: string, ok: bool)
    | StopIfRunning(app: App, ok: bool)
    | Close(socket: int, ok: bool)
    | SocketDestroyed
    | Destroy

  predicate Enabled(a: Agent, e: Event) {
    match e
    case Register(app, idle, _) => MayRegister(a, app, idle)
    case _ => true
  }

  function Next(a: Agent, e: Event): Agent
    requires Enabled(a, e)
  {
    match e
    case Register(app, idle, ok) => Registered(a, app, idle, ok)
    case Unregister(app, ok) => Unregistered(a, app, ok)
    case LaunchRequest(appId, socket, ok, fallbackOk) =>
      if appId == "" then a else Switched(a, appId, Some(socket), ok, fallbackOk).0
    case StopRequest(session, current, ok) => if StopAccepted(a, session, current) then GoneIdle(a, ok) else a
    case StopIfRunning(app, ok) => StoppedIfRunning(a, app, ok)
    case Close(socket, ok) => Closed(a, socket, ok)
    case SocketDestroyed => a.(portSocket := None)
    case Destroy => Destroyed(a)
  }

  lemma NextKeeps(a: Agent, e: Event)
    requires Inv(a) && Enabled(a, e)
    ensures Inv(Next(a, e))
  {
    match e
    case Register(app, idle, ok) => RegisteredKeeps(a, app, idle, ok);
    case Unregister(app, ok) => UnregisteredKeeps(a, app, ok);
    case LaunchRequest(appId, socket, ok, fallbackOk) => SwitchedKeeps(a, appId, Some(socket), ok, fallbackOk);
    case StopRequest(_, _, ok) => GoneIdleKeeps(a, ok);
    case StopIfRunning(_, ok) => GoneIdleKeeps(a, ok);
    case Close(socket, ok) => GoneIdleKeeps(a, ok);
    case SocketDestroyed =>
    case Destroy => SwitchedKeeps(a.(idleScreenApp := None), "", None, false, false);
  }

  // The idle screen runs after every stop that manages to launch it, and nothing does otherwise.
  lemma IdleScreenFollows(a: Agent, ok: bool)
    requires Inv(a)
    ensures GoneIdle(a, ok).launchedApp == a.launchedApp
            || GoneIdle(a, ok).launchedApp == (if ok then a.idleScreenApp else None)
    ensures a.launchedApp != a.idleScreenApp ==> GoneIdle(a, ok).launchedApp == (if ok then a.idleScreenApp else None)
    ensures GoneIdle(a, ok).portSocket.Some? ==> GoneIdle(a, ok) == a
    ensures Destroyed(a).launchedApp.None? && Destroyed(a).portSocket.None?
  {
  }

  ghost predicate IsRun(agents: seq<Agent>, events: seq<Event>) {
    && |agents| == |events| + 1
    && agents[0] == Agent(map[], None, None, "", None, None, [], [])
    && forall i :: 0 <= i < |events| ==> Enabled(agents[i], events[i]) && agents[i + 1] == Next(agents[i], events[i])
  }

  // In every run, whatever runs was launched and not stopped since, is registered under the id it was
  // launched by, is what the last broadcast names, and is what the port's socket was opened for.
  lemma {:induction false} EveryRunOrderly(agents: seq<Agent>, events: seq<Event>, n: nat)
    requires IsRun(agents, events) && n < |agents|
    ensures Inv(agents[n])
  {
    if n > 0 {
      EveryRunOrderly(agents, events, n - 1);
      NextKeeps(agents[n - 1], events[n - 1]);
    }
  }

  // ---------- What each request does

  // A launch of a registered application that is not running: what was running is stopped; on success it runs, by
  // that id and over that socket; on failure the idle screen runs exactly if it is another application and
  // launches; and the change is broadcast once.
  lemma LaunchDoes(a: Agent, appId: Id, socket: int, ok: bool, fallbackOk: bool)
    requires Inv(a) && appId in a.registered && a.launchedApp != Some(a.registered[appId])
    ensures var (b, error) := Switched(a, appId, Some(socket), ok, fallbackOk);
            var app := a.registered[appId];
            && b.registered == a.registered && b.idleScreenApp == a.idleScreenApp
            && b.broadcasts == a.broadcasts + [CurrentStatus(b)]
            && (ok ==> error == NoError && b.launchedApp == Some(app) && b.launchedVia == appId
                       && b.portSocket == Some(socket))
            && (!ok ==> error == SystemError && b.portSocket == None)
            && (!ok ==> b.launchedApp == if a.idleScreenApp != Some(app) && fallbackOk then a.idleScreenApp else None)
            && b.trace == a.trace
                 + (if a.launchedApp.Some? then [Stop(a.launchedApp.value)] else [])
                 + ([Launch(app, appId, ok)]
                    + if !ok && a.idleScreenApp.Some? && a.idleScreenApp != Some(app)
                      then [Launch(a.idleScreenApp.value, a.idleScreenApp.value.ids[0], fallbackOk)] else [])
  {
    var s := Stopped(a);
    assert Launched(s, a.registered[appId], appId, Some(socket), ok).trace
        == s.trace + [Launch(a.registered[appId], appId, ok)];
  }

  // Any other launch request changes nothing.
  lemma LaunchDoesNothing(a: Agent, appId: Id, socket: Option<int>, ok: bool, fallbackOk: bool)
    requires Inv(a) && appId != ""
    ensures appId !in a.registered ==> Switched(a, appId, socket, ok, fallbackOk) == (a, NotFound)
    ensures appId in a.registered && a.launchedApp == Some(a.registered[appId]) ==>
              Switched(a, appId, socket, ok, fallbackOk) == (a, NoError)
  {
  }

  // A socket that closes stops the application launched over it, and no other socket does anything.
  lemma CloseDoes(a: Agent, socket: int, ok: bool)
    requires Inv(a) && a.portSocket.Some?
    ensures a.portSocket != Some(socket) ==> Closed(a, socket, ok) == a
    ensures a.portSocket == Some(socket) && a.launchedApp != a.idleScreenApp ==>
              var b := Closed(a, socket, ok);
              b.launchedApp == (if ok then a.idleScreenApp else None) && b.portSocket == None
  {
    IdleScreenFollows(a, ok);
  }

  // A stop request is accepted if it names no session or the running application's, and only then.
  lemma StopDoes(a: Agent, session: Session, current: string)
    ensures StopAccepted(a, NoSession, current) && !StopAccepted(a, NotAString, current)
    ensures session.Session? ==> (StopAccepted(a, session, current) <==> a.launchedApp.Some? && session.id == current)
  {
  }

  // Registering enters the application under each of its ids and no other, and starts it if it is the idle screen
  // and nothing runs; unregistering takes all its entries away, and undoes registering.
  lemma RegisterDoes(a: Agent, app: App, idle: bool, ok: bool, id: Id)
    requires Inv(a) && MayRegister(a, app, idle)
    ensures var b := Registered(a, app, idle, ok);
            && b.idleScreenApp == (if idle then Some(app) else a.idleScreenApp)
            && (id in b.registered <==> id in app.ids || id in a.registered)
            && (id in b.registered ==> b.registered[id] == if id in app.ids then app else a.registered[id])
            && (idle && a.launchedApp.None? ==> b.launchedApp == (if ok then Some(app) else None))
            && (!idle || a.launchedApp.Some? ==> b.launchedApp == a.launchedApp)
  {
    assert app.ids[..|app.ids|] == app.ids;
    assert app.ids[0] in app.ids;
  }

  lemma UnregisterDoes(a: Agent, app: App, ok: bool, id: Id)
    requires Inv(a)
    ensures var b := Unregistered(a, app, ok);
            && (id in b.registered <==> id in a.registered && a.registered[id] != app)
            && (id in b.registered ==> b.registered[id] == a.registered[id])
            && b.idleScreenApp == (if a.idleScreenApp == Some(app) then None else a.idleScreenApp)
            && (a.launchedApp != Some(app) ==> b.launchedApp == a.launchedApp)
            && (a.launchedApp == Some(app) ==> b.launchedApp == if ok then b.idleScreenApp else None)
  {
  }

  lemma RegisteringIsUndone(a: Agent, app: App, idle: bool, ok: bool, again: bool)
    requires Inv(a) && MayRegister(a, app, idle) && forall id :: id in a.registered ==> a.registered[id] != app
    ensures Unregistered(Registered(a, app, idle, ok), app, again).registered == a.registered
  {
    var b := Registered(a, app, idle, ok);
    RegisteredKeeps(a, app, idle, ok);
    forall id
      ensures id in Unregistered(b, app, again).registered <==> id in a.registered
      ensures id in a.registered ==> Unregistered(b, app, again).registered[id] == a.registered[id]
    {
      RegisterDoes(a, app, idle, ok, id);
      UnregisterDoes(b, app, again, id);
    }
  }
}
