/** The app availability tracker of cast/sender/cast_app_availability_tracker.cc: which sources are
    registered, how often each app id is, and what each receiver answered about each app. */
module Trackers {
  import opened Ids

  datatype Verdict = Available | Unavailable | Unknown
  datatype Availability = Availability(verdict: Verdict, time: int)
  datatype Source = Source(id: Id, appIds: seq<Id>)
  type AppTable = map<Id, Availability>

  // ---------- What the tables mean

  predicate HasApp(apps: AppTable, app: Id) {
    app in apps && apps[app].verdict.Available?
  }

  // A receiver with this table can run a source with these app ids.
  predicate Runs(apps: AppTable, appIds: seq<Id>) {
    exists app :: app in appIds && HasApp(apps, app)
  }

  function Supporters(avail: map<Id, AppTable>, appIds: seq<Id>): set<Id> {
    set r | r in avail && Runs(avail[r], appIds)
  }

  function TableOf(avail: map<Id, AppTable>, receiver: Id): AppTable {
    if receiver in avail then avail[receiver] else map[]
  }

  function Supported(registered: map<Id, Source>, apps: AppTable): set<Id> {
    set s | s in registered && Runs(apps, registered[s].appIds)
  }

  function Containing(registered: map<Id, Source>, app: Id): set<Id> {
    set s | s in registered && app in registered[s].appIds
  }

  // The sources with the given ids, in order.
  ghost function Pick(registered: map<Id, Source>, keys: seq<Id>): (sources: seq<Source>)
    ensures |sources| == |keys|
  {
    seq(|keys|, i requires 0 <= i < |keys| =>
      if keys[i] in registered then registered[keys[i]] else Source(keys[i], []))
  }

  lemma PickAppend(registered: map<Id, Source>, keys: seq<Id>, s: Id)
    requires s in registered
    ensures Pick(registered, keys + [s]) == Pick(registered, keys) + [registered[s]]
  {}

  // Every app id of every registered source, with repetition.
  ghost function Registrations(registered: map<Id, Source>): multiset<Id>
    decreases |registered|
  {
    if registered == map[] then multiset{} else
      var k :| k in registered;
      multiset(registered[k].appIds) + Registrations(registered - {k})
  }

  lemma {:induction false} RegistrationsSplit(registered: map<Id, Source>, k: Id)
    requires k in registered
    ensures Registrations(registered) == multiset(registered[k].appIds) + Registrations(registered - {k})
    decreases |registered|
  {
    var j :| j in registered
        && Registrations(registered) == multiset(registered[j].appIds) + Registrations(registered - {j});
    if j != k {
      RegistrationsSplit(registered - {j}, k);
      RegistrationsSplit(registered - {k}, j);
      assert (registered - {j}) - {k} == (registered - {k}) - {j};
    }
  }

  lemma RegistrationsAdd(registered: map<Id, Source>, source: Source)
    requires source.id !in registered
    ensures Registrations(registered[source.id := source]) == Registrations(registered) + multiset(source.appIds)
  {
    var more := registered[source.id := source];
    RegistrationsSplit(more, source.id);
    assert more - {source.id} == registered;
  }

  // The count of each app id is its number of registrations, and only counted ids are present.
  ghost predicate CountsAre(counts: map<Id, int>, registrations: multiset<Id>) {
    && (forall app :: app in counts ==> app in registrations && counts[app] == registrations[app])
    && (forall app :: app in registrations ==> app in counts)
  }

  // ---------- How one answer changes the tables

  function Answered(avail: map<Id, AppTable>, receiver: Id, app: Id, answer: Availability): map<Id, AppTable> {
    avail[receiver := TableOf(avail, receiver)[app := answer]]
  }

  predicate Toggles(apps: AppTable, app: Id, answer: Availability) {
    HasApp(apps, app) != answer.verdict.Available?
  }

  // ---------- The loops

  lemma CountUp(counts: map<Id, int>, registrations: multiset<Id>, app: Id)
    requires CountsAre(counts, registrations)
    ensures CountsAre(counts[app := (if app in counts then counts[app] else 0) + 1], registrations + multiset{app})
  {}

  lemma CountDown(counts: map<Id, int>, registrations: multiset<Id>, app: Id)
    requires CountsAre(counts, registrations + multiset{app})
    ensures app in counts
    ensures CountsAre(if counts[app] == 1 then counts - {app} else counts[app := counts[app] - 1], registrations)
  {
    assert app in registrations + multiset{app};
  }

  // Counts each app id once more. Reports those that were not counted before, each once.
  method CountAll(counts: map<Id, int>, appIds: seq<Id>, ghost before: multiset<Id>)
    returns (after: map<Id, int>, newAppIds: seq<Id>)
    requires CountsAre(counts, before)
    ensures CountsAre(after, before + multiset(appIds))
    ensures forall app :: app in newAppIds <==> app in appIds && app !in counts
    ensures forall i, j :: 0 <= i < j < |newAppIds| ==> newAppIds[i] != newAppIds[j]
  {
    after, newAppIds := counts, [];
    assert multiset(appIds[..0]) == multiset{};
    for i := 0 to |appIds|
      invariant CountsAre(after, before + multiset(appIds[..i]))
      invariant forall app :: app in newAppIds <==> app in appIds[..i] && app !in counts
      invariant forall i, j :: 0 <= i < j < |newAppIds| ==> newAppIds[i] != newAppIds[j]
    {
      var app := appIds[i];
      assert appIds[..i + 1] == appIds[..i] + [app];
      assert before + multiset(appIds[..i + 1]) == (before + multiset(appIds[..i])) + multiset{app};
      CountUp(after, before + multiset(appIds[..i]), app);
      assert app in after <==> app in counts || app in appIds[..i];
      after := after[app := (if app in after then after[app] else 0) + 1];
      if after[app] == 1 {
        newAppIds := newAppIds + [app];
      }
    }
    assert appIds[..|appIds|] == appIds;
  }

  // Counts each app id once less; the check that it is counted cannot fail.
  method UncountAll(counts: map<Id, int>, appIds: seq<Id>, ghost rest: multiset<Id>) returns (after: map<Id, int>)
    requires CountsAre(counts, rest + multiset(appIds))
    ensures CountsAre(after, rest)
  {
    after := counts;
    assert appIds[0..] == appIds;
    for i := 0 to |appIds|
      invariant CountsAre(after, rest + multiset(appIds[i..]))
    {
      var app := appIds[i];
      assert appIds[i..] == [app] + appIds[i + 1..];
      assert rest + multiset(appIds[i..]) == (rest + multiset(appIds[i + 1..])) + multiset{app};
      CountDown(after, rest + multiset(appIds[i + 1..]), app);
      assert app in after;
      after := after[app := after[app] - 1];
      if after[app] == 0 {
        after := after - {app};
      }
    }
    assert multiset(appIds[|appIds|..]) == multiset{};
    assert rest + multiset(appIds[|appIds|..]) == rest;
  }

  // Whether the receiver can run one of the apps: the inner loop of GetAvailableReceivers.
  method FindAvailable(apps: AppTable, appIds: seq<Id>) returns (found: bool)
    ensures found == Runs(apps, appIds)
  {
    for j := 0 to |appIds|
      invariant forall app :: app in appIds[..j] ==> !HasApp(apps, app)
    {
      var app := appIds[j];
      assert appIds[..j + 1] == appIds[..j] + [app];
      if app in apps && apps[app].verdict == Available {
        assert HasApp(apps, app);
        return true;
      }
    }
    assert appIds[..|appIds|] == appIds;
    return false;
  }

  // The first `n` keys, those outside `target` passed over.
  ghost function Kept(keys: seq<Id>, target: set<Id>, n: nat): seq<Id>
    requires n <= |keys|
  {
    if n == 0 then []
    else Kept(keys, target, n - 1) + if keys[n - 1] in target then [keys[n - 1]] else []
  }

  ghost function KeptSet(keys: seq<Id>, target: set<Id>, n: nat): set<Id>
    requires n <= |keys|
  {
    if n == 0 then {}
    else KeptSet(keys, target, n - 1) + if keys[n - 1] in target then {keys[n - 1]} else {}
  }

  lemma {:induction false} KeptSetIs(keys: seq<Id>, target: set<Id>, n: nat)
    requires n <= |keys|
    ensures forall k :: k in KeptSet(keys, target, n) <==> k in keys[..n] && k in target
  {
    if n > 0 {
      KeptSetIs(keys, target, n - 1);
      assert keys[..n] == keys[..n - 1] + [keys[n - 1]];
    }
  }

  // Walking all keys in order and keeping some gives those in order.
  lemma {:induction false} KeptInOrder(all: set<Id>, keys: seq<Id>, target: set<Id>, n: nat)
    requires keys == Sorted(all) && n <= |keys|
    ensures Kept(keys, target, n) == Sorted(KeptSet(keys, target, n))
  {
    if n > 0 {
      KeptInOrder(all, keys, target, n - 1);
      KeptSetIs(keys, target, n - 1);
      var before := KeptSet(keys, target, n - 1);
      if keys[n - 1] in target {
        SortedStep(all, before, n - 1);
        assert KeptSet(keys, target, n) == before + {keys[n - 1]};
      } else {
        assert KeptSet(keys, target, n) == before;
        assert Kept(keys, target, n) == Kept(keys, target, n - 1);
      }
    }
  }

  lemma KeptAll(all: set<Id>, target: set<Id>)
    requires target <= all
    ensures Kept(Sorted(all), target, |Sorted(all)|) == Sorted(target)
  {
    var keys := Sorted(all);
    KeptInOrder(all, keys, target, |keys|);
    KeptSetIs(keys, target, |keys|);
    SortedElements(all);
    assert keys[..|keys|] == keys;
    assert KeptSet(keys, target, |keys|) == target;
  }

  method SourcesContaining(registered: map<Id, Source>, app: Id) returns (affected: seq<Source>)
    ensures affected == Pick(registered, Sorted(Containing(registered, app)))
  {
    affected := [];
    var keys := Sorted(registered.Keys);
    SortedElements(registered.Keys);
    ghost var target := Containing(registered, app);
    KeptAll(registered.Keys, target);
    for i := 0 to |keys|
      invariant affected == Pick(registered, Kept(keys, target, i))
    {
      var s := keys[i];
      assert s in keys;
      if app in registered[s].appIds {
        PickAppend(registered, Kept(keys, target, i), s);
        affected := affected + [registered[s]];
      }
    }
  }

  // Whether one of the source's app ids is among the supported ones.
  method ContainsAnyAppIdFrom(appIds: seq<Id>, supported: set<Id>, ghost apps: AppTable) returns (b: bool)
    requires supported == set app | app in apps && apps[app].verdict == Available
    ensures b == Runs(apps, appIds)
  {
    for i := 0 to |appIds|
      invariant forall app :: app in appIds[..i] ==> !HasApp(apps, app)
    {
      assert appIds[..i + 1] == appIds[..i] + [appIds[i]];
      if appIds[i] in supported {
        assert HasApp(apps, appIds[i]);
        return true;
      }
    }
    assert appIds[..|appIds|] == appIds;
    return false;
  }

  method SourcesSupported(registered: map<Id, Source>, apps: AppTable) returns (sources: seq<Source>)
    ensures sources == Pick(registered, Sorted(Supported(registered, apps)))
  {
    var supportedAppIds := set app | app in apps && apps[app].verdict == Available;
    ghost var target := Supported(registered, apps);
    KeptAll(registered.Keys, target);
    SortedElements(registered.Keys);
    sources := SelectSources(registered, Sorted(registered.Keys), supportedAppIds, apps, target);
  }

  method SelectSources(registered: map<Id, Source>, keys: seq<Id>, supported: set<Id>,
                       ghost apps: AppTable, ghost target: set<Id>)
    returns (sources: seq<Source>)
    requires supported == set app | app in apps && apps[app].verdict == Available
    requires forall s :: s in keys ==> s in registered
    requires forall s :: s in registered ==> (s in target) == Runs(apps, registered[s].appIds)
    ensures sources == Pick(registered, Kept(keys, target, |keys|))
  {
    sources := [];
    for i := 0 to |keys|
      invariant sources == Pick(registered, Kept(keys, target, i))
    {
      var s := keys[i];
      var contains := ContainsAnyAppIdFrom(registered[s].appIds, supported, apps);
      if contains {
        PickAppend(registered, Kept(keys, target, i), s);
        sources := sources + [registered[s]];
      }
    }
  }

  method ReceiversSupporting(avail: map<Id, AppTable>, appIds: seq<Id>) returns (receiverIds: seq<Id>)
    ensures receiverIds == Sorted(Supporters(avail, appIds))
  {
    receiverIds := [];
    var keys := Sorted(avail.Keys);
    SortedElements(avail.Keys);
    ghost var target := Supporters(avail, appIds);
    KeptAll(avail.Keys, target);
    for i := 0 to |keys|
      invariant receiverIds == Kept(keys, target, i)
    {
      assert keys[i] in keys;
      var found := FindAvailable(avail[keys[i]], appIds);
      if found {
        receiverIds := receiverIds + [keys[i]];
      }
    }
  }

  class Tracker {
    var registered: map<Id, Source>
    var counts: map<Id, int>
    var avail: map<Id, AppTable>

    // Each count is the number of registrations of its app id.
    ghost predicate Valid()
      reads this
    {
      && CountsAre(counts, Registrations(registered))
      && forall s :: s in registered ==> registered[s].id == s
    }

    constructor ()
      ensures Valid() && registered == map[] && counts == map[] && avail == map[]
    {
      registered, counts, avail := map[], map[], map[];
    }

    method RegisterSource(source: Source) returns (newAppIds: seq<Id>)
      requires Valid()
      modifies this`registered, this`counts
      ensures Valid()
      ensures registered == if source.id in old(registered) then old(registered)
              else old(registered)[source.id := source]
      ensures source.id in old(registered) ==> newAppIds == [] && counts == old(counts)
      ensures source.id !in old(registered) ==>
                forall app :: app in newAppIds <==> app in source.appIds && app !in old(counts)
      ensures forall i, j :: 0 <= i < j < |newAppIds| ==> newAppIds[i] != newAppIds[j]
    {
      newAppIds := [];
      if source.id in registered {
        return;
      }
      RegistrationsAdd(registered, source);
      counts, newAppIds := CountAll(counts, source.appIds, Registrations(registered));
      registered := registered[source.id := source];
    }

    method UnregisterSource(sourceId: Id)
      requires Valid()
      modifies this`registered, this`counts
      ensures Valid() && registered == old(registered) - {sourceId}
    {
      if sourceId !in registered {
        assert registered - {sourceId} == registered;
        return;
      }
      RegistrationsSplit(registered, sourceId);
      var rest := registered - {sourceId};
      assert multiset(registered[sourceId].appIds) + Registrations(rest)
          == Registrations(rest) + multiset(registered[sourceId].appIds);
      counts := UncountAll(counts, registered[sourceId].appIds, Registrations(rest));
      registered := rest;
    }

    method UpdateAppAvailability(receiver: Id, app: Id, answer: Availability) returns (affected: seq<Source>)
      modifies this`avail
      ensures avail == Answered(old(avail), receiver, app, answer)
      ensures affected == if Toggles(TableOf(old(avail), receiver), app, answer)
                          then Pick(registered, Sorted(Containing(registered, app))) else []
    {
      var apps := TableOf(avail, receiver);
      var oldVerdict := if app in apps then apps[app].verdict else Unknown;
      var newVerdict := answer.verdict;
      var updated := (oldVerdict == Available || newVerdict == Available) && oldVerdict != newVerdict;
      avail := avail[receiver := apps[app := answer]];
      if !updated {
        return [];
      }
      affected := SourcesContaining(registered, app);
    }

    method RemoveResultsForReceiver(receiver: Id) returns (affected: seq<Source>)
      modifies this`avail
      ensures avail == old(avail) - {receiver}
      ensures affected == Pick(registered, Sorted(Supported(registered, TableOf(old(avail), receiver))))
    {
      affected := GetSupportedSources(receiver);
      avail := avail - {receiver};
    }

    method GetSupportedSources(receiver: Id) returns (sources: seq<Source>)
      ensures sources == Pick(registered, Sorted(Supported(registered, TableOf(avail, receiver))))
    {
      if receiver !in avail {
        assert Supported(registered, map[]) == {};
        return [];
      }
      sources := SourcesSupported(registered, avail[receiver]);
    }

    // Receivers with at least one available app of the source, each once, in order.
    method GetAvailableReceivers(source: Source) returns (receiverIds: seq<Id>)
      ensures receiverIds == Sorted(Supporters(avail, source.appIds))
    {
      receiverIds := ReceiversSupporting(avail, source.appIds);
    }

    // What is known about one app on one receiver; Unknown at time zero if nothing is.
    method GetAvailability(receiver: Id, app: Id) returns (a: Availability)
      ensures a == if app in TableOf(avail, receiver) then TableOf(avail, receiver)[app] else Availability(Unknown, 0)
    {
      if receiver !in avail {
        return Availability(Unknown, 0);
      }
      var apps := avail[receiver];
      if app !in apps {
        return Availability(Unknown, 0);
      }
      return apps[app];
    }
  }
}
