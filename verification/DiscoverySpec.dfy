/** What the discovery service owes its subscribers (cast/sender/cast_app_discovery_service_impl.cc):
    the list last pushed to each of them is the list one would compute from scratch. The service only
    pushes changes; here the pushes of every kind of event are shown to be enough. */
module DiscoverySpecs {
  import opened Ids
  import opened Trackers

  datatype Receiver = Receiver(id: Id, description: string)
  datatype Subscriber = Subscriber(queryId: nat, delivered: seq<seq<Receiver>>)

  datatype Picture = Picture(
    receivers: map<Id, Receiver>,
    queries: map<Id, seq<Subscriber>>,
    registered: map<Id, Source>,
    avail: map<Id, AppTable>)

  // ---------- The list computed from scratch

  function Lookup(receivers: map<Id, Receiver>, ids: seq<Id>): seq<Receiver> {
    if ids == [] then []
    else (if ids[0] in receivers then [receivers[ids[0]]] else []) + Lookup(receivers, ids[1..])
  }

  // The known receivers that can run one of the apps, in order of their ids.
  ghost function Expected(receivers: map<Id, Receiver>, avail: map<Id, AppTable>, appIds: seq<Id>): seq<Receiver> {
    Lookup(receivers, Sorted(set r | r in receivers && Runs(TableOf(avail, r), appIds)))
  }

  function LastDelivered(s: Subscriber): seq<Receiver> {
    if s.delivered == [] then [] else s.delivered[|s.delivered| - 1]
  }

  ghost predicate Current(s: Subscriber, list: seq<Receiver>) {
    LastDelivered(s) == list
  }

  ghost predicate AllCurrent(subscribers: seq<Subscriber>, list: seq<Receiver>) {
    forall i :: 0 <= i < |subscribers| ==> Current(subscribers[i], list)
  }

  // The bookkeeping agrees: the same sources are subscribed and registered, and only known
  // receivers have stored answers.
  ghost predicate Consistent(p: Picture) {
    && p.queries.Keys == p.registered.Keys
    && (forall s :: s in p.queries ==> p.queries[s] != [])
    && (forall s :: s in p.registered ==> p.registered[s].id == s)
    && p.avail.Keys <= p.receivers.Keys
  }

  ghost predicate UpToDate(p: Picture) {
    p.queries.Keys == p.registered.Keys &&
    forall s :: s in p.queries ==> AllCurrent(p.queries[s], Expected(p.receivers, p.avail, p.registered[s].appIds))
  }

  ghost predicate InSync(p: Picture) {
    Consistent(p) && UpToDate(p)
  }

  // ---------- What the list holds

  // Strictly ascending ids.
  ghost predicate Ascending(keys: seq<Id>) {
    forall i, j :: 0 <= i < j < |keys| ==> keys[i] != keys[j] && AtMost(keys[i], keys[j])
  }

  // The receiver answered that one of the apps is available.
  ghost predicate Offers(avail: map<Id, AppTable>, r: Id, appIds: seq<Id>) {
    r in avail && exists app :: app in appIds && app in avail[r] && avail[r][app].verdict == Available
  }

  // One entry for each known receiver that offers one of the apps, and no other, by ascending id.
  ghost predicate IsListing(
    list: seq<Receiver>, keys: seq<Id>, receivers: map<Id, Receiver>, avail: map<Id, AppTable>, appIds: seq<Id>) {
    && Ascending(keys)
    && (forall r :: r in keys <==> r in receivers && Offers(avail, r, appIds))
    && |list| == |keys|
    && (forall i :: 0 <= i < |keys| ==> keys[i] in receivers && list[i] == receivers[keys[i]])
  }

  // Known receivers are found one for one.
  lemma {:induction false} LookupIs(receivers: map<Id, Receiver>, ids: seq<Id>)
    requires forall i :: 0 <= i < |ids| ==> ids[i] in receivers
    ensures |Lookup(receivers, ids)| == |ids|
    ensures forall i :: 0 <= i < |ids| ==> Lookup(receivers, ids)[i] == receivers[ids[i]]
  {
    if ids != [] { LookupIs(receivers, ids[1..]); }
  }

  // And unknown ones are passed over.
  lemma {:induction false} LookupFinds(receivers: map<Id, Receiver>, ids: seq<Id>, receiver: Receiver)
    ensures receiver in Lookup(receivers, ids) <==> exists r :: r in ids && r in receivers && receivers[r] == receiver
  {
    if ids != [] {
      LookupFinds(receivers, ids[1..], receiver);
      assert ids == [ids[0]] + ids[1..];
    }
  }

  lemma ExpectedIsListing(receivers: map<Id, Receiver>, avail: map<Id, AppTable>, appIds: seq<Id>)
      returns (keys: seq<Id>)
    ensures IsListing(Expected(receivers, avail, appIds), keys, receivers, avail, appIds)
  {
    var able := set r | r in receivers && Runs(TableOf(avail, r), appIds);
    keys := Sorted(able);
    SortedElements(able);
    forall i, j | 0 <= i < j < |keys| ensures keys[i] != keys[j] && AtMost(keys[i], keys[j]) {
      SortedDistinct(able, i, j);
      SortedInOrder(able, i, j);
    }
    forall r ensures r in able <==> r in receivers && Offers(avail, r, appIds) { RunsIfOffers(avail, r, appIds); }
    forall i | 0 <= i < |keys| ensures keys[i] in receivers { assert keys[i] in keys; }
    LookupIs(receivers, keys);
  }

  lemma RunsIfOffers(avail: map<Id, AppTable>, r: Id, appIds: seq<Id>)
    ensures Runs(TableOf(avail, r), appIds) <==> Offers(avail, r, appIds)
  {
    if Runs(TableOf(avail, r), appIds) {
      var app :| app in appIds && HasApp(TableOf(avail, r), app);
      assert app in appIds && app in avail[r] && avail[r][app].verdict == Available;
    }
    if Offers(avail, r, appIds) {
      var app :| app in appIds && app in avail[r] && avail[r][app].verdict == Available;
      assert HasApp(TableOf(avail, r), app);
    }
  }

  // ---------- When the list does not change

  lemma {:induction false} LookupSame(r1: map<Id, Receiver>, r2: map<Id, Receiver>, ids: seq<Id>)
    requires forall r :: r in ids ==> r in r1 && r in r2 && r1[r] == r2[r]
    ensures Lookup(r1, ids) == Lookup(r2, ids)
  {
    if ids != [] {
      assert forall r :: r in ids[1..] ==> r in ids;
      LookupSame(r1, r2, ids[1..]);
    }
  }

  lemma ExpectedSame(p: Picture, q: Picture, appIds: seq<Id>)
    requires forall r :: r in p.receivers && Runs(TableOf(p.avail, r), appIds) <==>
                         r in q.receivers && Runs(TableOf(q.avail, r), appIds)
    requires forall r :: r in p.receivers && Runs(TableOf(p.avail, r), appIds) ==> p.receivers[r] == q.receivers[r]
    ensures Expected(p.receivers, p.avail, appIds) == Expected(q.receivers, q.avail, appIds)
  {
    var s := set r | r in p.receivers && Runs(TableOf(p.avail, r), appIds);
    assert s == set r | r in q.receivers && Runs(TableOf(q.avail, r), appIds);
    SortedElements(s);
    LookupSame(p.receivers, q.receivers, Sorted(s));
  }

  // What GetAvailableReceivers finds is what the from-scratch list is made of.
  lemma CachedIsExpected(p: Picture, appIds: seq<Id>)
    requires p.avail.Keys <= p.receivers.Keys
    ensures Lookup(p.receivers, Sorted(Supporters(p.avail, appIds))) == Expected(p.receivers, p.avail, appIds)
  {
    assert !Runs(map[], appIds);
    assert Supporters(p.avail, appIds) == set r | r in p.receivers && Runs(TableOf(p.avail, r), appIds);
  }

  // ---------- Pushing the new list to the subscribers of some sources

  function Push(subscribers: seq<Subscriber>, list: seq<Receiver>): (pushed: seq<Subscriber>)
    ensures |pushed| == |subscribers|
  {
    seq(|subscribers|, i requires 0 <= i < |subscribers| =>
      subscribers[i].(delivered := subscribers[i].delivered + [list]))
  }

  ghost function Notified(p: Picture, affected: set<Id>): map<Id, seq<Subscriber>>
    requires p.queries.Keys == p.registered.Keys
  {
    map s | s in p.queries ::
      if s in affected then Push(p.queries[s], Expected(p.receivers, p.avail, p.registered[s].appIds)) else p.queries[s]
  }

  // If the lists of all unaffected sources are as before, notifying the affected ones is enough.
  lemma NotifyKeepsUpToDate(p: Picture, q: Picture, affected: set<Id>)
    requires UpToDate(p) && q.queries == p.queries && q.registered == p.registered
    requires forall s :: s in p.queries && s !in affected ==>
               Expected(p.receivers, p.avail, p.registered[s].appIds)
                   == Expected(q.receivers, q.avail, p.registered[s].appIds)
    ensures UpToDate(q.(queries := Notified(q, affected)))
  {
    var queries := Notified(q, affected);
    forall s | s in queries ensures AllCurrent(queries[s], Expected(q.receivers, q.avail, q.registered[s].appIds)) {
      assert AllCurrent(p.queries[s], Expected(p.receivers, p.avail, p.registered[s].appIds));
    }
  }

  // ---------- Events

  ghost function Changed(q: Picture, affected: set<Id>): Picture
    requires q.queries.Keys == q.registered.Keys
  {
    q.(queries := Notified(q, affected))
  }

  ghost function Added(p: Picture, receiver: Receiver): Picture
    requires p.queries.Keys == p.registered.Keys
  {
    Changed(p.(receivers := p.receivers[receiver.id := receiver]),
        Supported(p.registered, TableOf(p.avail, receiver.id)))
  }

  ghost function Removed(p: Picture, r: Id): Picture
    requires p.queries.Keys == p.registered.Keys
  {
    Changed(p.(receivers := p.receivers - {r}, avail := p.avail - {r}), Supported(p.registered, TableOf(p.avail, r)))
  }

  ghost function Answer(p: Picture, r: Id, app: Id, answer: Availability): Picture
    requires p.queries.Keys == p.registered.Keys
  {
    if r !in p.receivers then p else
      Changed(p.(avail := Answered(p.avail, r, app, answer)),
              if Toggles(TableOf(p.avail, r), app, answer) then Containing(p.registered, app) else {})
  }

  // A subscription starts with the cached list, if there is anything in it.
  ghost function Subscribed(p: Picture, source: Source, queryId: nat): Picture {
    var cached := Sorted(Supporters(p.avail, source.appIds));
    var subscriber := Subscriber(queryId, if cached == [] then [] else [Lookup(p.receivers, cached)]);
    var before := if source.id in p.queries then p.queries[source.id] else [];
    p.(queries := p.queries[source.id := before + [subscriber]],
       registered := if source.id in p.registered then p.registered else p.registered[source.id := source])
  }

  // The subscriber at position i of source s leaves; the last one takes the source with it.
  ghost function Unsubscribed(p: Picture, s: Id, i: nat): Picture
    requires s in p.queries && i < |p.queries[s]|
  {
    if |p.queries[s]| == 1 then p.(queries := p.queries - {s}, registered := p.registered - {s})
    else p.(queries := p.queries[s := p.queries[s][..i] + p.queries[s][i + 1..]])
  }

  // A change to the receivers and answers that is pushed to every source it affects keeps the sync.
  lemma ChangedKeepsSync(p: Picture, q: Picture, affected: set<Id>)
    requires InSync(p) && q.queries == p.queries && q.registered == p.registered && q.avail.Keys <= q.receivers.Keys
    requires forall s :: s in p.queries && s !in affected ==>
               Expected(p.receivers, p.avail, p.registered[s].appIds)
                   == Expected(q.receivers, q.avail, p.registered[s].appIds)
    ensures InSync(Changed(q, affected))
  {
    NotifyKeepsUpToDate(p, q, affected);
  }

  lemma AddedSame(p: Picture, receiver: Receiver, appIds: seq<Id>)
    requires !Runs(TableOf(p.avail, receiver.id), appIds)
    ensures Expected(p.receivers, p.avail, appIds) == Expected(p.receivers[receiver.id := receiver], p.avail, appIds)
  {
    ExpectedSame(p, p.(receivers := p.receivers[receiver.id := receiver]), appIds);
  }

  lemma AddedKeepsSync(p: Picture, receiver: Receiver)
    requires InSync(p)
    ensures InSync(Added(p, receiver))
  {
    var q := p.(receivers := p.receivers[receiver.id := receiver]);
    var affected := Supported(p.registered, TableOf(p.avail, receiver.id));
    forall s | s in p.queries && s !in affected
      ensures Expected(p.receivers, p.avail, p.registered[s].appIds)
              == Expected(q.receivers, q.avail, p.registered[s].appIds)
    {
      AddedSame(p, receiver, p.registered[s].appIds);
    }
    ChangedKeepsSync(p, q, affected);
  }

  lemma RemovedSame(p: Picture, r: Id, appIds: seq<Id>)
    requires !Runs(TableOf(p.avail, r), appIds)
    ensures Expected(p.receivers, p.avail, appIds) == Expected(p.receivers - {r}, p.avail - {r}, appIds)
  {
    ExpectedSame(p, p.(receivers := p.receivers - {r}, avail := p.avail - {r}), appIds);
  }

  lemma RemovedKeepsSync(p: Picture, r: Id)
    requires InSync(p)
    ensures InSync(Removed(p, r))
  {
    var q := p.(receivers := p.receivers - {r}, avail := p.avail - {r});
    var affected := Supported(p.registered, TableOf(p.avail, r));
    forall s | s in p.queries && s !in affected
      ensures Expected(p.receivers, p.avail, p.registered[s].appIds)
              == Expected(q.receivers, q.avail, p.registered[s].appIds)
    {
      RemovedSame(p, r, p.registered[s].appIds);
    }
    ChangedKeepsSync(p, q, affected);
  }

  lemma AnswerKeepsRuns(apps: AppTable, app: Id, answer: Availability, appIds: seq<Id>)
    requires app !in appIds || !Toggles(apps, app, answer)
    ensures Runs(apps[app := answer], appIds) == Runs(apps, appIds)
  {
    var after := apps[app := answer];
    assert forall a :: a in appIds ==> HasApp(after, a) == HasApp(apps, a);
  }

  lemma AnswerKeepsSync(p: Picture, r: Id, app: Id, answer: Availability)
    requires InSync(p)
    ensures InSync(Answer(p, r, app, answer))
  {
    if r in p.receivers {
      var q := p.(avail := Answered(p.avail, r, app, answer));
      var affected := if Toggles(TableOf(p.avail, r), app, answer) then Containing(p.registered, app) else {};
      forall s | s in p.queries && s !in affected
        ensures Expected(p.receivers, p.avail, p.registered[s].appIds)
                == Expected(q.receivers, q.avail, p.registered[s].appIds)
      {
        AnswerKeepsRuns(TableOf(p.avail, r), app, answer, p.registered[s].appIds);
        ExpectedSame(p, q, p.registered[s].appIds);
      }
      ChangedKeepsSync(p, q, affected);
    }
  }

  // A new subscriber starts current.
  lemma NewSubscriberCurrent(p: Picture, source: Source, queryId: nat)
    requires p.avail.Keys <= p.receivers.Keys
    ensures var q := Subscribed(p, source, queryId);
            Current(q.queries[source.id][|q.queries[source.id]| - 1], Expected(p.receivers, p.avail, source.appIds))
  {
    CachedIsExpected(p, source.appIds);
  }

  lemma SubscribedKeepsSync(p: Picture, source: Source, queryId: nat)
    requires InSync(p) && (source.id in p.registered ==> p.registered[source.id] == source)
    ensures InSync(Subscribed(p, source, queryId))
  {
    NewSubscriberCurrent(p, source, queryId);
    var q := Subscribed(p, source, queryId);
    forall s | s in q.queries ensures AllCurrent(q.queries[s], Expected(q.receivers, q.avail, q.registered[s].appIds)) {
      if s in p.queries {
        assert AllCurrent(p.queries[s], Expected(p.receivers, p.avail, p.registered[s].appIds));
      }
    }
  }

  lemma UnsubscribedKeepsSync(p: Picture, s: Id, i: nat)
    requires InSync(p) && s in p.queries && i < |p.queries[s]|
    ensures InSync(Unsubscribed(p, s, i))
  {
    var q := Unsubscribed(p, s, i);
    forall t | t in q.queries ensures AllCurrent(q.queries[t], Expected(q.receivers, q.avail, q.registered[t].appIds)) {
      assert AllCurrent(p.queries[t], Expected(p.receivers, p.avail, p.registered[t].appIds));
    }
  }

  // ---------- Every run

  datatype Event =
    | Add(receiver: Receiver)
    | Remove(id: Id)
    | Reply(id: Id, app: Id, answer: Availability)
    | Subscribe(source: Source, queryId: nat)
    | Unsubscribe(sourceId: Id, position: nat)

  // Sources are told apart by id: `appsOf` gives the app ids behind each.
  predicate Enabled(p: Picture, e: Event, appsOf: Id -> seq<Id>) {
    match e
    case Subscribe(source, _) => source.appIds == appsOf(source.id)
    case Unsubscribe(s, i) => s in p.queries && i < |p.queries[s]|
    case _ => true
  }

  ghost function Next(p: Picture, e: Event, appsOf: Id -> seq<Id>): Picture
    requires Enabled(p, e, appsOf) && p.queries.Keys == p.registered.Keys
  {
    match e
    case Add(receiver) => Added(p, receiver)
    case Remove(r) => Removed(p, r)
    case Reply(r, app, answer) => Answer(p, r, app, answer)
    case Subscribe(source, queryId) => Subscribed(p, source, queryId)
    case Unsubscribe(s, i) => Unsubscribed(p, s, i)
  }

  ghost predicate Inv(p: Picture, appsOf: Id -> seq<Id>) {
    InSync(p) && forall s :: s in p.registered ==> p.registered[s].appIds == appsOf(s)
  }

  lemma NextKeepsInv(p: Picture, e: Event, appsOf: Id -> seq<Id>)
    requires Inv(p, appsOf) && Enabled(p, e, appsOf)
    ensures Inv(Next(p, e, appsOf), appsOf)
  {
    match e
    case Add(receiver) => AddedKeepsSync(p, receiver);
    case Remove(r) => RemovedKeepsSync(p, r);
    case Reply(r, app, answer) => AnswerKeepsSync(p, r, app, answer);
    case Subscribe(source, queryId) =>
      if source.id in p.registered { assert p.registered[source.id] == source; }
      SubscribedKeepsSync(p, source, queryId);
    case Unsubscribe(s, i) => UnsubscribedKeepsSync(p, s, i);
  }

  ghost predicate IsRun(ps: seq<Picture>, events: seq<Event>, appsOf: Id -> seq<Id>) {
    && |ps| == |events| + 1 && ps[0] == Picture(map[], map[], map[], map[])
    && forall i :: 0 <= i < |events| ==>
         && ps[i].queries.Keys == ps[i].registered.Keys && Enabled(ps[i], events[i], appsOf)
         && ps[i + 1] == Next(ps[i], events[i], appsOf)
  }

  // ---------- What each event does besides

  function QueryIds(subscribers: seq<Subscriber>): (ids: seq<nat>)
    ensures |ids| == |subscribers|
  {
    seq(|subscribers|, i requires 0 <= i < |subscribers| => subscribers[i].queryId)
  }

  function QueryIdsOf(p: Picture, s: Id): seq<nat> {
    if s in p.queries then QueryIds(p.queries[s]) else []
  }

  // Receivers, answers and subscriptions after each event. Notifying changes none of them.
  lemma EventsDo(p: Picture, e: Event, appsOf: Id -> seq<Id>, s: Id)
    requires Inv(p, appsOf) && Enabled(p, e, appsOf)
    ensures var q := Next(p, e, appsOf);
            match e
            case Add(receiver) =>
              && q.receivers == p.receivers[receiver.id := receiver]
              && q.avail == p.avail && QueryIdsOf(q, s) == QueryIdsOf(p, s)
            case Remove(r) =>
              q.receivers == p.receivers - {r} && q.avail == p.avail - {r} && QueryIdsOf(q, s) == QueryIdsOf(p, s)
            case Reply(r, app, answer) =>
              && q.receivers == p.receivers && QueryIdsOf(q, s) == QueryIdsOf(p, s)
              && q.avail == if r in p.receivers then p.avail[r := TableOf(p.avail, r)[app := answer]] else p.avail
            case Subscribe(source, queryId) =>
              && q.receivers == p.receivers && q.avail == p.avail
              && QueryIdsOf(q, s) == QueryIdsOf(p, s) + if s == source.id then [queryId] else []
            case Unsubscribe(t, i) =>
              && q.receivers == p.receivers && q.avail == p.avail
              && QueryIdsOf(q, s) == if s != t then QueryIdsOf(p, s)
                  else QueryIdsOf(p, s)[..i] + QueryIdsOf(p, s)[i + 1..]
  {
    match e
    case Add(receiver) =>
      var q := p.(receivers := p.receivers[receiver.id := receiver]);
      TellingKeepsQueryIds(q, Supported(p.registered, TableOf(p.avail, receiver.id)), s);
    case Remove(r) =>
      TellingKeepsQueryIds(p.(receivers := p.receivers - {r}, avail := p.avail - {r}),
                           Supported(p.registered, TableOf(p.avail, r)), s);
    case Reply(r, app, answer) => ReplyDoes(p, r, app, answer, s);
    case Subscribe(source, queryId) => SubscribeDoes(p, source, queryId, s);
    case Unsubscribe(t, i) => UnsubscribeDoes(p, t, i, s);
  }

  lemma TellingKeepsQueryIds(p: Picture, affected: set<Id>, s: Id)
    requires p.queries.Keys == p.registered.Keys
    ensures QueryIdsOf(Changed(p, affected), s) == QueryIdsOf(p, s)
  {
    var q := Changed(p, affected);
    if s in p.queries {
      forall i | 0 <= i < |p.queries[s]| ensures QueryIds(q.queries[s])[i] == QueryIds(p.queries[s])[i] {
        ToldOnce(p, affected, s, i);
      }
    }
  }

  lemma ReplyDoes(p: Picture, r: Id, app: Id, answer: Availability, s: Id)
    requires p.queries.Keys == p.registered.Keys
    ensures var q := Answer(p, r, app, answer);
            && q.receivers == p.receivers && QueryIdsOf(q, s) == QueryIdsOf(p, s)
            && q.avail == if r in p.receivers then p.avail[r := TableOf(p.avail, r)[app := answer]] else p.avail
  {
    if r in p.receivers {
      TellingKeepsQueryIds(p.(avail := Answered(p.avail, r, app, answer)),
                           if Toggles(TableOf(p.avail, r), app, answer) then Containing(p.registered, app) else {}, s);
    }
  }

  lemma SubscribeDoes(p: Picture, source: Source, queryId: nat, s: Id)
    ensures QueryIdsOf(Subscribed(p, source, queryId), s) == QueryIdsOf(p, s) + if s == source.id then [queryId] else []
  {
  }

  lemma UnsubscribeDoes(p: Picture, t: Id, i: nat, s: Id)
    requires t in p.queries && i < |p.queries[t]|
    ensures QueryIdsOf(Unsubscribed(p, t, i), s)
         == if s != t then QueryIdsOf(p, s) else QueryIdsOf(p, s)[..i] + QueryIdsOf(p, s)[i + 1..]
  {
  }

  // A change that makes the list of some sources new is told to each of their subscribers once, and to
  // nobody else.
  lemma ToldOnce(p: Picture, affected: set<Id>, s: Id, i: nat)
    requires p.queries.Keys == p.registered.Keys && s in p.queries && i < |p.queries[s]|
    ensures var q := Changed(p, affected);
            && s in q.queries && |q.queries[s]| == |p.queries[s]| && q.queries[s][i].queryId == p.queries[s][i].queryId
            && q.queries[s][i].delivered == p.queries[s][i].delivered
                 + if s in affected then [Expected(p.receivers, p.avail, p.registered[s].appIds)] else []
  {
  }

  lemma {:induction false} RunKeepsInv(ps: seq<Picture>, events: seq<Event>, appsOf: Id -> seq<Id>, n: nat)
    requires IsRun(ps, events, appsOf) && n < |ps|
    ensures Inv(ps[n], appsOf)
  {
    if n > 0 {
      RunKeepsInv(ps, events, appsOf, n - 1);
      NextKeepsInv(ps[n - 1], events[n - 1], appsOf);
    }
  }

  // After every step of every run, the list last delivered to each live subscription (nothing, if
  // none was) has one entry for each known receiver that offers an app of the source, by ascending id: it
  // is what one would compute from scratch.
  lemma EveryRunInSync(
    ps: seq<Picture>, events: seq<Event>, appsOf: Id -> seq<Id>, n: nat, s: Id, i: nat) returns (keys: seq<Id>)
    requires IsRun(ps, events, appsOf) && n < |ps| && s in ps[n].queries && i < |ps[n].queries[s]|
    ensures IsListing(LastDelivered(ps[n].queries[s][i]), keys, ps[n].receivers, ps[n].avail, appsOf(s))
    ensures Inv(ps[n], appsOf)
  {
    RunKeepsInv(ps, events, appsOf, n);
    var p := ps[n];
    assert AllCurrent(p.queries[s], Expected(p.receivers, p.avail, p.registered[s].appIds));
    assert Current(p.queries[s][i], Expected(p.receivers, p.avail, p.registered[s].appIds));
    keys := ExpectedIsListing(p.receivers, p.avail, appsOf(s));
  }
}
