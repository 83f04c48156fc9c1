/** The discovery service class of cast/sender/cast_app_discovery_service_impl.cc over its tracker.
    Each method is proved to make the step of DiscoverySpecs that it stands for.

    The platform client is seen through the set of receivers it has a socket for: a request to any
    other receiver is answered at once with Unknown, inside the call. Every other answer arrives later
    as a call of UpdateAppAvailability with any verdict. Subscribers do not call the service back. */
module Discovery {
  import opened Ids
  import opened Trackers
  import opened DiscoverySpecs

  const REFRESH_THRESHOLD := 60_000_000  // one minute, in microseconds
  const QUERY_IDS := 0x1_0000_0000       // query ids are uint32_t

  // Answers may have been added, but none that makes an app available or unavailable.
  ghost predicate SameApps(a: map<Id, AppTable>, b: map<Id, AppTable>) {
    forall r, app :: HasApp(TableOf(a, r), app) == HasApp(TableOf(b, r), app)
  }

  method GetReceiversByIds(receivers: map<Id, Receiver>, ids: seq<Id>) returns (found: seq<Receiver>)
    ensures found == Lookup(receivers, ids)
  {
    found := [];
    for i := 0 to |ids|
      invariant found + Lookup(receivers, ids[i..]) == Lookup(receivers, ids)
    {
      assert ids[i..][1..] == ids[i + 1..];
      if ids[i] in receivers {
        found := found + [receivers[ids[i]]];
      }
    }
  }

  // Runs one source's callbacks in turn.
  method Deliver(subscribers: seq<Subscriber>, list: seq<Receiver>) returns (pushed: seq<Subscriber>)
    ensures pushed == Push(subscribers, list)
  {
    pushed := [];
    for i := 0 to |subscribers|
      invariant pushed == Push(subscribers, list)[..i]
    {
      pushed := pushed + [subscribers[i].(delivered := subscribers[i].delivered + [list])];
    }
  }

  class Service {
    var receivers: map<Id, Receiver>
    var queries: map<Id, seq<Subscriber>>
    var nextQueryId: nat
    var now: int
    var sockets: set<Id>
    ghost var requested: seq<(Id, Id)>       // requests handed to the platform client
    const tracker: Tracker

    ghost function View(): Picture
      reads this, tracker
    {
      Picture(receivers, queries, tracker.registered, tracker.avail)
    }

    ghost predicate Valid()
      reads this, tracker
    {
      tracker.Valid() && InSync(View()) && nextQueryId < QUERY_IDS
    }

    constructor (now: int)
      ensures Valid() && View() == Picture(map[], map[], map[], map[]) && fresh(tracker)
    {
      receivers, queries, nextQueryId := map[], map[], 1;
      this.now, sockets, requested := now, {}, [];
      tracker := new Tracker();
    }

    // Notifies the subscribers of the given sources, which the tracker listed by ascending id.
    method UpdateAvailabilityQueries(sources: seq<Source>, ghost ids: set<Id>)
      requires Consistent(View()) && ids <= tracker.registered.Keys
      requires sources == Pick(tracker.registered, Sorted(ids))
      modifies this`queries
      ensures View() == Changed(old(View()), ids)
    {
      ghost var p := View();
      NotifiedNobody(p);
      for i := 0 to |sources|
        invariant queries == Notified(p, Elements(Sorted(ids)[..i]))
      {
        assert View() == p.(queries := queries);
        NotifyNext(sources[i], p, ids, i);
      }
      AllElements(ids);
    }

    // One more source of the list is notified.
    method NotifyNext(source: Source, ghost p: Picture, ghost ids: set<Id>, ghost i: nat)
      requires Consistent(p) && ids <= p.registered.Keys && i < |Sorted(ids)|
      requires View() == p.(queries := Notified(p, Elements(Sorted(ids)[..i])))
      requires source == Pick(p.registered, Sorted(ids))[i]
      modifies this`queries
      ensures queries == Notified(p, Elements(Sorted(ids)[..i + 1]))
    {
      ListedSource(p.registered, ids, i);
      PushedOne(p, Sorted(ids), i, source.id);
      NotifySource(source);
    }

    // Computes the source's list anew and runs its callbacks, if it has any.
    method NotifySource(source: Source)
      requires tracker.avail.Keys <= receivers.Keys
      modifies this`queries
      ensures queries == if source.id in old(queries)
                then old(queries)[source.id := Push(old(queries)[source.id],
                    Expected(receivers, tracker.avail, source.appIds))]
                else old(queries)
    {
      if source.id in queries {
        var receiverIds := tracker.GetAvailableReceivers(source);
        var list := GetReceiversByIds(receivers, receiverIds);
        CachedIsExpected(View(), source.appIds);
        var pushed := Deliver(queries[source.id], list);
        queries := queries[source.id := pushed];
      }
    }

    method UpdateAppAvailability(receiver: Id, app: Id, verdict: Verdict)
      requires Valid()
      modifies this`queries, tracker`avail
      ensures Valid() && View() == Answer(old(View()), receiver, app, Availability(verdict, now))
    {
      ghost var p := View();
      ghost var answer := Availability(verdict, now);
      if receiver in receivers {
        var affected := tracker.UpdateAppAvailability(receiver, app, Availability(verdict, now));
        ghost var ids := if Toggles(TableOf(p.avail, receiver), app, answer) then Containing(p.registered, app) else {};
        assert Sorted({}) == [];
        UpdateAvailabilityQueries(affected, ids);
      }
      AnswerKeepsSync(p, receiver, app, answer);
    }

    // Asks the platform client, if what is known is not recent enough.
    method RequestAppAvailability(receiver: Id, app: Id)
      requires Valid()
      modifies this`queries, this`requested, tracker`avail
      ensures Valid() && OnlyAsked(old(View()), View()) && SameDue(old(tracker.avail), tracker.avail, now)
      ensures requested ==
                old(requested) + if Due(old(tracker.avail), now, receiver, app) then [(receiver, app)] else []
      ensures tracker.avail ==
                if Due(old(tracker.avail), now, receiver, app) && receiver !in sockets && receiver in receivers
                then Answered(old(tracker.avail), receiver, app, Availability(Unknown, now))
                else old(tracker.avail)
    {
      ghost var p := View();
      var known := tracker.GetAvailability(receiver, app);
      var shouldRefresh := match known.verdict {
        case Available => false
        case Unavailable => now - known.time > REFRESH_THRESHOLD
        case Unknown => true
      };
      if shouldRefresh {
        requested := requested + [(receiver, app)];
        if receiver !in sockets {
          UpdateAppAvailability(receiver, app, Unknown);
          UnknownChangesNothing(p, receiver, app, now);
          UnknownStaysDue(p.avail, receiver, app, now);
        }
      }
    }

    // Since `before`, where the view was `p`, exactly `asked` was asked, and what was due is as due as it was.
    ghost predicate Asked(p: Picture, before: seq<(Id, Id)>, asked: seq<(Id, Id)>)
      reads this, tracker
    {
      Valid() && OnlyAsked(p, View()) && SameDue(p.avail, tracker.avail, now) && requested == before + asked
    }

    lemma AskedOn(p: Picture, q: Picture, before: seq<(Id, Id)>, asked: seq<(Id, Id)>, more: seq<(Id, Id)>)
      requires OnlyAsked(p, q) && SameDue(p.avail, q.avail, now) && Asked(q, before + asked, more)
      ensures Asked(p, before, asked + more)
    {
      AskedTwice(p, q, View(), now);
      assert (before + asked) + more == before + (asked + more);
    }

    method RequestNext(receiver: Id, apps: seq<Id>, j: nat, ghost p: Picture, ghost before: seq<(Id, Id)>)
      requires j < |apps| && Asked(p, before, DueApps(p.avail, now, receiver, apps[..j]))
      modifies this`queries, this`requested, tracker`avail
      ensures Asked(p, before, DueApps(p.avail, now, receiver, apps[..j + 1]))
    {
      DueOneMore(p.avail, now, receiver, apps, j);
      ghost var q, asked := View(), DueApps(p.avail, now, receiver, apps[..j]);
      ghost var more := if Due(p.avail, now, receiver, apps[j]) then [(receiver, apps[j])] else [];
      RequestAppAvailability(receiver, apps[j]);
      AskedOn(p, q, before, asked, more);
    }

    // Asks one receiver about each of the apps. What was due to begin with is what is asked.
    method RequestEach(receiver: Id, apps: seq<Id>)
      requires Valid()
      modifies this`queries, this`requested, tracker`avail
      ensures Asked(old(View()), old(requested), DueApps(old(View()).avail, now, receiver, apps))
    {
      ghost var p, before := View(), requested;
      for j := 0 to |apps|
        invariant Asked(p, before, DueApps(p.avail, now, receiver, apps[..j]))
      {
        RequestNext(receiver, apps, j, p, before);
      }
      assert apps[..|apps|] == apps;
    }

    method RequestNextReceiver(receiverIds: seq<Id>, apps: seq<Id>, i: nat, ghost p: Picture,
        ghost before: seq<(Id, Id)>)
      requires i < |receiverIds| && Asked(p, before, DueOf(p.avail, now, receiverIds[..i], apps))
      modifies this`queries, this`requested, tracker`avail
      ensures Asked(p, before, DueOf(p.avail, now, receiverIds[..i + 1], apps))
    {
      DueOneReceiver(p.avail, now, receiverIds, apps, i);
      ghost var q, asked := View(), DueOf(p.avail, now, receiverIds[..i], apps);
      DueAppsSame(p.avail, q.avail, now, receiverIds[i], apps);
      RequestEach(receiverIds[i], apps);
      AskedOn(p, q, before, asked, DueApps(q.avail, now, receiverIds[i], apps));
    }

    // Asks each of the receivers about each of the apps.
    method RequestAll(receiverIds: seq<Id>, apps: seq<Id>)
      requires Valid()
      modifies this`queries, this`requested, tracker`avail
      ensures Asked(old(View()), old(requested), DueOf(old(View()).avail, now, receiverIds, apps))
    {
      ghost var p, before := View(), requested;
      for i := 0 to |receiverIds|
        invariant Asked(p, before, DueOf(p.avail, now, receiverIds[..i], apps))
      {
        RequestNextReceiver(receiverIds, apps, i, p, before);
      }
      assert receiverIds[..|receiverIds|] == receiverIds;
    }

    // Every known receiver is asked about every registered app that is due.
    method Refresh()
      requires Valid()
      modifies this`queries, this`requested, tracker`avail
      ensures Valid() && OnlyAsked(old(View()), View())
      ensures requested == old(requested)
                + DueOf(old(tracker.avail), now, Sorted(receivers.Keys), Sorted(old(tracker.counts).Keys))
    {
      var apps := Sorted(tracker.counts.Keys);
      RequestAll(Sorted(receivers.Keys), apps);
    }

    method AddOrUpdateReceiver(receiver: Receiver)
      requires Valid()
      modifies this`receivers, this`queries, this`requested, tracker`avail
      ensures Valid() && OnlyAsked(Added(old(View()), receiver), View())
      ensures requested == old(requested)
              + DueOf(old(tracker.avail), now, [receiver.id], Sorted(old(tracker.counts).Keys))
    {
      ghost var p := View();
      receivers := receivers[receiver.id := receiver];
      var affected := tracker.GetSupportedSources(receiver.id);
      UpdateAvailabilityQueries(affected, Supported(tracker.registered, TableOf(tracker.avail, receiver.id)));
      AddedKeepsSync(p, receiver);
      RequestAll([receiver.id], Sorted(tracker.counts.Keys));
    }

    method RemoveReceiver(receiver: Id)
      requires Valid()
      modifies this`receivers, this`queries, tracker`avail
      ensures Valid() && View() == Removed(old(View()), receiver)
    {
      ghost var p := View();
      receivers := receivers - {receiver};
      var affected := tracker.RemoveResultsForReceiver(receiver);
      UpdateAvailabilityQueries(affected, Supported(p.registered, TableOf(p.avail, receiver)));
      RemovedKeepsSync(p, receiver);
    }

    // The apps that were not registered before are asked about, at every known receiver.
    method StartObservingAvailability(source: Source) returns (queryId: nat, ghost newAppIds: seq<Id>)
      requires Valid() && (source.id in tracker.registered ==> tracker.registered[source.id] == source)
      modifies this`queries, this`nextQueryId, this`requested, tracker`registered, tracker`counts, tracker`avail
      ensures Valid() && queryId == old(nextQueryId)
      ensures OnlyAsked(Subscribed(old(View()), source, queryId), View())
      ensures AreNewApps(newAppIds, old(tracker.registered), old(tracker.counts), source)
      ensures requested == old(requested) + DueNew(old(tracker.avail), now, Sorted(receivers.Keys), newAppIds)
    {
      var apps;
      queryId, apps := AddSubscription(source);
      newAppIds := apps;
      AskNewApps(Sorted(receivers.Keys), apps);
    }

    method AddSubscription(source: Source) returns (queryId: nat, newAppIds: seq<Id>)
      requires Valid() && (source.id in tracker.registered ==> tracker.registered[source.id] == source)
      modifies this`queries, this`nextQueryId, tracker`registered, tracker`counts
      ensures Valid() && View() == Subscribed(old(View()), source, queryId) && queryId == old(nextQueryId)
      ensures AreNewApps(newAppIds, old(tracker.registered), old(tracker.counts), source)
    {
      SubscribedKeepsSync(View(), source, nextQueryId);
      queryId, newAppIds := AddAndRegister(source);
    }

    // The first subscriber of a source registers it.
    method AddAndRegister(source: Source) returns (queryId: nat, newAppIds: seq<Id>)
      requires tracker.Valid() && Consistent(View())
      modifies this`queries, this`nextQueryId, tracker`registered, tracker`counts
      ensures tracker.Valid() && View() == Subscribed(old(View()), source, queryId)
      ensures queryId == old(nextQueryId) && nextQueryId == (queryId + 1) % QUERY_IDS
      ensures AreNewApps(newAppIds, old(tracker.registered), old(tracker.counts), source)
    {
      queryId := AddSubscriber(source);
      newAppIds := [];
      if |queries[source.id]| == 1 {
        newAppIds := tracker.RegisterSource(source);
      }
    }

    // Delivers the cached list, if any, and takes the subscriber down.
    method AddSubscriber(source: Source) returns (queryId: nat)
      modifies this`queries, this`nextQueryId
      ensures queryId == old(nextQueryId) && nextQueryId == (queryId + 1) % QUERY_IDS
      ensures queries == Subscribed(old(View()), source, queryId).queries
    {
      var cached := tracker.GetAvailableReceivers(source);
      var delivered := [];
      if cached != [] {
        var list := GetReceiversByIds(receivers, cached);
        delivered := [list];
      }
      queryId := nextQueryId;
      nextQueryId := (nextQueryId + 1) % QUERY_IDS;
      var before := if source.id in queries then queries[source.id] else [];
      queries := queries[source.id := before + [Subscriber(queryId, delivered)]];
    }

    // Ends the first subscription with the given id, if there is one.
    method RemoveAvailabilityCallback(id: nat)
      requires Valid()
      modifies this`queries, tracker`registered, tracker`counts
      ensures Valid()
      ensures (exists s, i :: FirstSubscription(old(queries), s, i, id) && View() == Unsubscribed(old(View()), s, i))
              || (View() == old(View()) && forall s, i :: !Subscribes(old(queries), s, i, id))
    {
      ghost var p := View();
      var found, s, i := FindCallback(queries, id);
      if found {
        Erase(s, i);
        UnsubscribedKeepsSync(p, s, i);
        assert FirstSubscription(p.queries, s, i, id);
      }
    }

    method Erase(s: Id, i: nat)
      requires tracker.Valid() && Consistent(View()) && s in queries && i < |queries[s]|
      modifies this`queries, tracker`registered, tracker`counts
      ensures tracker.Valid() && View() == Unsubscribed(old(View()), s, i)
    {
      var callbacks := queries[s][..i] + queries[s][i + 1..];
      queries := queries[s := callbacks];
      if callbacks == [] {
        tracker.UnregisterSource(s);
        queries := queries - {s};
        assert queries == old(queries) - {s};
      }
    }

    method AskNewApp(receiverIds: seq<Id>, apps: seq<Id>, j: nat, ghost p: Picture, ghost before: seq<(Id, Id)>)
      requires j < |apps| && Asked(p, before, DueNew(p.avail, now, receiverIds, apps[..j]))
      modifies this`queries, this`requested, tracker`avail
      ensures Asked(p, before, DueNew(p.avail, now, receiverIds, apps[..j + 1]))
    {
      DueOneApp(p.avail, now, receiverIds, apps, j);
      ghost var q, asked := View(), DueNew(p.avail, now, receiverIds, apps[..j]);
      DueOfSame(p.avail, q.avail, now, receiverIds, [apps[j]]);
      RequestAll(receiverIds, [apps[j]]);
      AskedOn(p, q, before, asked, DueOf(q.avail, now, receiverIds, [apps[j]]));
    }

    // For each new app, asks every receiver.
    method AskNewApps(receiverIds: seq<Id>, apps: seq<Id>)
      requires Valid()
      modifies this`queries, this`requested, tracker`avail
      ensures Asked(old(View()), old(requested), DueNew(old(View()).avail, now, receiverIds, apps))
    {
      ghost var p, before := View(), requested;
      for j := 0 to |apps|
        invariant Asked(p, before, DueNew(p.avail, now, receiverIds, apps[..j]))
      {
        AskNewApp(receiverIds, apps, j, p, before);
      }
      assert apps[..|apps|] == apps;
    }
  }

  ghost predicate Subscribes(queries: map<Id, seq<Subscriber>>, s: Id, i: int, id: nat) {
    s in queries && 0 <= i < |queries[s]| && queries[s][i].queryId == id
  }

  // The first one with the id, in the order of source ids and then of subscription.
  ghost predicate FirstSubscription(queries: map<Id, seq<Subscriber>>, s: Id, i: int, id: nat) {
    Subscribes(queries, s, i, id)
    && forall t, j :: Subscribes(queries, t, j, id) ==> if t == s then i <= j else AtMost(s, t)
  }

  method FindCallback(queries: map<Id, seq<Subscriber>>, id: nat) returns (found: bool, s: Id, i: nat)
    ensures found ==> FirstSubscription(queries, s, i, id)
    ensures !found ==> forall s, i :: !Subscribes(queries, s, i, id)
  {
    var keys := Sorted(queries.Keys);
    SortedElements(queries.Keys);
    for k := 0 to |keys|
      invariant forall s, i :: s in keys[..k] ==> !Subscribes(queries, s, i, id)
    {
      s := keys[k];
      assert s in keys && keys[..k + 1] == keys[..k] + [s];
      i := FindQuery(queries[s], id);
      if i < |queries[s]| {
        forall t, j | Subscribes(queries, t, j, id) && t != s ensures AtMost(s, t) {
          SortedAfter(queries.Keys, k, t);
        }
        return true, s, i;
      }
    }
    assert keys[..|keys|] == keys;
    found, s, i := false, "", 0;
  }

  method FindQuery(subscribers: seq<Subscriber>, id: nat) returns (i: nat)
    ensures i <= |subscribers| && (i < |subscribers| ==> subscribers[i].queryId == id)
    ensures forall j :: 0 <= j < i ==> subscribers[j].queryId != id
  {
    i := 0;
    while i < |subscribers| && subscribers[i].queryId != id
      invariant i <= |subscribers|
      invariant forall j :: 0 <= j < i ==> subscribers[j].queryId != id
    {
      i := i + 1;
    }
  }

  predicate ShouldRefresh(apps: AppTable, app: Id, now: int) {
    app !in apps || apps[app].verdict.Unknown?
    || (apps[app].verdict.Unavailable? && now - apps[app].time > REFRESH_THRESHOLD)
  }

  // ---------- What is asked

  predicate Due(avail: map<Id, AppTable>, now: int, receiver: Id, app: Id) {
    ShouldRefresh(TableOf(avail, receiver), app, now)
  }

  ghost predicate SameDue(a: map<Id, AppTable>, b: map<Id, AppTable>, now: int) {
    forall r, app :: Due(a, now, r, app) == Due(b, now, r, app)
  }

  // The requests for one receiver, for several about the same apps, and for several about one app each.
  function DueApps(avail: map<Id, AppTable>, now: int, receiver: Id, apps: seq<Id>): seq<(Id, Id)> {
    if apps == [] then [] else
      var app := apps[|apps| - 1];
      DueApps(avail, now, receiver, apps[..|apps| - 1])
      + if Due(avail, now, receiver, app) then [(receiver, app)] else []
  }

  function DueOf(avail: map<Id, AppTable>, now: int, receivers: seq<Id>, apps: seq<Id>): seq<(Id, Id)> {
    if receivers == [] then [] else
      DueOf(avail, now, receivers[..|receivers| - 1], apps) + DueApps(avail, now, receivers[|receivers| - 1], apps)
  }

  function DueNew(avail: map<Id, AppTable>, now: int, receivers: seq<Id>, apps: seq<Id>): seq<(Id, Id)> {
    if apps == [] then [] else
      DueNew(avail, now, receivers, apps[..|apps| - 1]) + DueOf(avail, now, receivers, [apps[|apps| - 1]])
  }

  lemma DueOneMore(avail: map<Id, AppTable>, now: int, receiver: Id, apps: seq<Id>, j: nat)
    requires j < |apps|
    ensures DueApps(avail, now, receiver, apps[..j + 1])
         == DueApps(avail, now, receiver, apps[..j])
            + if Due(avail, now, receiver, apps[j]) then [(receiver, apps[j])] else []
  {
    assert apps[..j + 1][..j] == apps[..j];
  }

  lemma DueOneReceiver(avail: map<Id, AppTable>, now: int, receivers: seq<Id>, apps: seq<Id>, i: nat)
    requires i < |receivers|
    ensures DueOf(avail, now, receivers[..i + 1], apps)
         == DueOf(avail, now, receivers[..i], apps) + DueApps(avail, now, receivers[i], apps)
  {
    assert receivers[..i + 1][..i] == receivers[..i];
  }

  lemma DueOneApp(avail: map<Id, AppTable>, now: int, receivers: seq<Id>, apps: seq<Id>, j: nat)
    requires j < |apps|
    ensures DueNew(avail, now, receivers, apps[..j + 1])
         == DueNew(avail, now, receivers, apps[..j]) + DueOf(avail, now, receivers, [apps[j]])
  {
    assert apps[..j + 1][..j] == apps[..j];
  }

  lemma {:induction false} DueAppsSame(a: map<Id, AppTable>, b: map<Id, AppTable>, now: int, receiver: Id,
      apps: seq<Id>)
    requires SameDue(a, b, now)
    ensures DueApps(a, now, receiver, apps) == DueApps(b, now, receiver, apps)
  {
    if apps != [] {
      DueAppsSame(a, b, now, receiver, apps[..|apps| - 1]);
      assert Due(a, now, receiver, apps[|apps| - 1]) == Due(b, now, receiver, apps[|apps| - 1]);
    }
  }

  lemma {:induction false} DueOfSame(a: map<Id, AppTable>, b: map<Id, AppTable>, now: int, receivers: seq<Id>,
      apps: seq<Id>)
    requires SameDue(a, b, now)
    ensures DueOf(a, now, receivers, apps) == DueOf(b, now, receivers, apps)
  {
    if receivers != [] {
      DueOfSame(a, b, now, receivers[..|receivers| - 1], apps);
      DueAppsSame(a, b, now, receivers[|receivers| - 1], apps);
    }
  }

  lemma AskedTwice(p: Picture, q: Picture, r: Picture, now: int)
    requires OnlyAsked(p, q) && OnlyAsked(q, r) && SameDue(p.avail, q.avail, now) && SameDue(q.avail, r.avail, now)
    ensures OnlyAsked(p, r) && SameDue(p.avail, r.avail, now)
  {
  }

  // The requests are exactly for the pairs that are due.
  lemma {:induction false} DueAppsAre(avail: map<Id, AppTable>, now: int, receiver: Id, apps: seq<Id>, r: Id, app: Id)
    ensures (r, app) in DueApps(avail, now, receiver, apps) <==> r == receiver && app in apps && Due(avail, now, r, app)
  {
    if apps != [] {
      DueAppsAre(avail, now, receiver, apps[..|apps| - 1], r, app);
      assert apps == apps[..|apps| - 1] + [apps[|apps| - 1]];
    }
  }

  lemma {:induction false} DueOfAre(avail: map<Id, AppTable>, now: int, receivers: seq<Id>, apps: seq<Id>, r: Id,
      app: Id)
    ensures (r, app) in DueOf(avail, now, receivers, apps) <==> r in receivers && app in apps && Due(avail, now, r, app)
  {
    if receivers != [] {
      var n := |receivers| - 1;
      DueOfAre(avail, now, receivers[..n], apps, r, app);
      DueAppsAre(avail, now, receivers[n], apps, r, app);
      assert receivers == receivers[..n] + [receivers[n]];
    }
  }

  lemma {:induction false} DueNewAre(avail: map<Id, AppTable>, now: int, receivers: seq<Id>, apps: seq<Id>, r: Id,
      app: Id)
    ensures (r, app) in DueNew(avail, now, receivers, apps)
            <==> r in receivers && app in apps && Due(avail, now, r, app)
  {
    if apps != [] {
      var n := |apps| - 1;
      DueNewAre(avail, now, receivers, apps[..n], r, app);
      DueOfAre(avail, now, receivers, [apps[n]], r, app);
      assert apps == apps[..n] + [apps[n]];
    }
  }

  // No pair is asked about twice.
  lemma {:induction false} DueAppsOnce(avail: map<Id, AppTable>, now: int, receiver: Id, apps: seq<Id>)
    requires forall i, j :: 0 <= i < j < |apps| ==> apps[i] != apps[j]
    ensures multiset(DueApps(avail, now, receiver, apps)) <= multiset(set app | app in apps :: (receiver, app))
  {
    if apps != [] {
      var n := |apps| - 1;
      var app := apps[n];
      DueAppsOnce(avail, now, receiver, apps[..n]);
      assert apps == apps[..n] + [app] && app !in apps[..n];
      DueAppsAre(avail, now, receiver, apps[..n], receiver, app);
    }
  }

  // An available app is never asked about again, an unavailable one when the answer is more than a minute
  // old, and an unknown one always.
  lemma WhenDue(avail: map<Id, AppTable>, receiver: Id, app: Id, answer: Availability, now: int)
    ensures Due(Answered(avail, receiver, app, answer), now, receiver, app) <==>
              match answer.verdict
              case Available => false
              case Unavailable => now > answer.time + 60_000_000
              case Unknown => true
    ensures receiver !in avail || app !in avail[receiver] ==> Due(avail, now, receiver, app)
  {
  }

  // An Unknown answer leaves an app that was due as due as it was, and touches no other.
  lemma UnknownStaysDue(avail: map<Id, AppTable>, receiver: Id, app: Id, now: int)
    requires Due(avail, now, receiver, app)
    ensures SameDue(avail, Answered(avail, receiver, app, Availability(Unknown, now)), now)
  {
    var after := Answered(avail, receiver, app, Availability(Unknown, now));
    forall r, a ensures Due(avail, now, r, a) == Due(after, now, r, a) {
      if r != receiver { assert TableOf(after, r) == TableOf(avail, r); }
    }
  }

  // The app ids of a source that is not registered yet and that no registered source has, each once.
  ghost predicate AreNewApps(apps: seq<Id>, registered: map<Id, Source>, counts: map<Id, int>, source: Source) {
    && (forall app :: app in apps <==> source.id !in registered && app in source.appIds && app !in counts)
    && (forall i, j :: 0 <= i < j < |apps| ==> apps[i] != apps[j])
  }

  // Nothing but the record of what was asked has changed.
  ghost predicate OnlyAsked(p: Picture, q: Picture) {
    q.receivers == p.receivers && q.queries == p.queries && q.registered == p.registered && SameApps(p.avail, q.avail)
  }

  function Elements(keys: seq<Id>): set<Id> {
    set k | k in keys
  }

  lemma ListedSource(registered: map<Id, Source>, ids: set<Id>, i: nat)
    requires ids <= registered.Keys && i < |Sorted(ids)| && forall s :: s in registered ==> registered[s].id == s
    ensures Sorted(ids)[i] in registered && Sorted(ids)[i] !in Sorted(ids)[..i]
    ensures Pick(registered, Sorted(ids))[i] == registered[Sorted(ids)[i]]
    ensures Pick(registered, Sorted(ids))[i].id == Sorted(ids)[i]
  {
    SortedElements(ids);
    assert Sorted(ids)[i] in Sorted(ids);
    forall j | 0 <= j < i ensures Sorted(ids)[j] != Sorted(ids)[i] { SortedDistinct(ids, j, i); }
  }

  lemma AllElements(ids: set<Id>)
    ensures Elements(Sorted(ids)[..|Sorted(ids)|]) == ids
  {
    SortedElements(ids);
    assert Sorted(ids)[..|Sorted(ids)|] == Sorted(ids);
  }

  lemma NotifiedNobody(p: Picture)
    requires p.queries.Keys == p.registered.Keys
    ensures Notified(p, {}) == p.queries
  {}

  // Pushing to one more source extends the set of notified sources by it.
  lemma PushedOne(p: Picture, keys: seq<Id>, i: nat, s: Id)
    requires p.queries.Keys == p.registered.Keys && i < |keys| && keys[i] == s && s !in keys[..i] && s in p.queries
    ensures s in Notified(p, Elements(keys[..i])) && Notified(p, Elements(keys[..i]))[s] == p.queries[s]
    ensures Notified(p, Elements(keys[..i + 1]))
         == Notified(p, Elements(keys[..i]))[s := Push(p.queries[s],
             Expected(p.receivers, p.avail, p.registered[s].appIds))]
  {
    assert keys[..i + 1] == keys[..i] + [s];
  }

  // An answer of Unknown about an app that is not available reaches nobody.
  lemma UnknownChangesNothing(p: Picture, receiver: Id, app: Id, now: int)
    requires p.queries.Keys == p.registered.Keys && !HasApp(TableOf(p.avail, receiver), app)
    ensures OnlyAsked(p, Answer(p, receiver, app, Availability(Unknown, now)))
  {
    NotifiedNobody(p.(avail := Answered(p.avail, receiver, app, Availability(Unknown, now))));
  }
}
